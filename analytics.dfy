/** The figures behind the analytics screen of app.js: `showAnalytics` totals the records of one
    kind inside the time window per category, sorts the categories by total, and splits them
    into the five largest and an "Others" bucket; `renderTrendChart` totals each kind per day of
    the window. The dates that depend on the clock (the cutoff, the days of the window) are
    parameters. */
module Analytics {
  import opened Model
  import opened Strings
  import opened Sorting
  import opened Queries

  // ---------------------------------------------------------------- sums over a filter

  /** `s.filter(p)` of a non-empty `s`: the head if it passes, then the filter of the rest. */
  lemma WhereCons<T(!new)>(s: seq<T>, p: T -> bool)
    requires s != []
    ensures Where(s, p) == (if p(s[0]) then [s[0]] else []) + Where(s[1..], p)
  {
  }

  /** `s.filter(p)` of `s + [x]` is the filter of `s` followed by `x` if it passes. */
  lemma {:induction false} WhereSnoc<T(!new)>(s: seq<T>, x: T, p: T -> bool)
    ensures Where(s + [x], p) == Where(s, p) + (if p(x) then [x] else [])
  {
    var tail := if p(x) then [x] else [];
    if s == [] {
      WhereCons([x], p);
      assert [] + [x] == [x] && [x][1..] == [];
    } else {
      var pre := if p(s[0]) then [s[0]] else [];
      WhereCons(s + [x], p);
      WhereCons(s, p);
      assert (s + [x])[0] == s[0] && (s + [x])[1..] == s[1..] + [x];
      WhereSnoc(s[1..], x, p);
      assert pre + (Where(s[1..], p) + tail) == (pre + Where(s[1..], p)) + tail;
    }
  }

  /** The amounts of the records that pass `p`, added up. */
  function SumWhere(rs: seq<Record>, p: Record -> bool): int {
    Total(Where(rs, p))
  }

  lemma SumWhereSnoc(rs: seq<Record>, x: Record, p: Record -> bool)
    ensures SumWhere(rs + [x], p) == SumWhere(rs, p) + (if p(x) then x.amount else 0)
  {
    WhereSnoc(rs, x, p);
    TotalAppend(Where(rs, p), if p(x) then [x] else []);
    assert [x][..0] == [];
  }

  function InCategory(c: string): Record -> bool {
    (r: Record) => r.category == c
  }

  /** The total of the records of category `c`: what `showAnalytics` should show for it. */
  function CategorySum(rs: seq<Record>, c: string): int {
    SumWhere(rs, InCategory(c))
  }

  // ---------------------------------------------------------------- the category table

  /** A `[category, total]` entry of `Object.entries(categoryTotals)`. */
  datatype CategoryTotal = CategoryTotal(category: string, total: int)

  /** The position of category `c` in the table, or `|t|` when it has none. */
  function IndexOfCategory(t: seq<CategoryTotal>, c: string): (i: nat)
    ensures i <= |t|
    ensures i < |t| ==> t[i].category == c
    ensures forall j :: 0 <= j < i ==> t[j].category != c
  {
    if t == [] then 0 else if t[0].category == c then 0 else 1 + IndexOfCategory(t[1..], c)
  }

  predicate HasCategory(t: seq<CategoryTotal>, c: string) {
    exists j :: 0 <= j < |t| && t[j].category == c
  }

  /** Some record of `rs` has category `c`. */
  predicate SomeRecordOf(rs: seq<Record>, c: string) {
    exists r :: r in rs && r.category == c
  }

  predicate DistinctCategories(t: seq<CategoryTotal>) {
    forall i, j :: 0 <= i < j < |t| ==> t[i].category != t[j].category
  }

  /** One step of the `forEach`: `categoryTotals[c] = (categoryTotals[c] || 0) + amount`. A new
      category goes last, as a new key of an object does. */
  function Bump(t: seq<CategoryTotal>, r: Record): seq<CategoryTotal> {
    var i := IndexOfCategory(t, r.category);
    if i < |t| then t[i := CategoryTotal(r.category, t[i].total + r.amount)]
    else t + [CategoryTotal(r.category, r.amount)]
  }

  /** The table after the `forEach` over `rs`, in the order `Object.entries` lists it. */
  function Tally(rs: seq<Record>): seq<CategoryTotal> {
    if rs == [] then [] else Bump(Tally(rs[..|rs| - 1]), rs[|rs| - 1])
  }

  /** The `forEach` of `showAnalytics` that fills `categoryTotals`. */
  method CategoryTotals(rs: seq<Record>) returns (t: seq<CategoryTotal>)
    ensures t == Tally(rs)
  {
    t := [];
    var i := 0;
    while i < |rs|
      invariant 0 <= i <= |rs|
      invariant t == Tally(rs[..i])
    {
      var r := rs[i];
      var k := IndexOfCategory(t, r.category);
      if k < |t| {
        t := t[k := CategoryTotal(r.category, t[k].total + r.amount)];
      } else {
        t := t + [CategoryTotal(r.category, r.amount)];
      }
      assert rs[..i + 1][..i] == rs[..i];
      i := i + 1;
    }
    assert rs[..|rs|] == rs;
  }

  /** A bump keeps every category where it was and adds the record's category if it is new. */
  lemma BumpCategories(t: seq<CategoryTotal>, r: Record)
    ensures var b := Bump(t, r);
      && |t| <= |b| <= |t| + 1
      && (forall j :: 0 <= j < |t| ==> b[j].category == t[j].category)
      && (|b| == |t| + 1 ==> b[|t|].category == r.category && !HasCategory(t, r.category))
      && (|b| == |t| ==> HasCategory(t, r.category))
  {
    var i := IndexOfCategory(t, r.category);
    if i < |t| {
      assert t[i].category == r.category;
    }
  }

  /** The table lists each category once, and exactly the categories of the records. */
  lemma {:induction false} TallyCategories(rs: seq<Record>)
    ensures DistinctCategories(Tally(rs))
    ensures forall c :: HasCategory(Tally(rs), c) <==> SomeRecordOf(rs, c)
  {
    if rs != [] {
      var init, x := rs[..|rs| - 1], rs[|rs| - 1];
      assert rs == init + [x];
      TallyCategories(init);
      var t, b := Tally(init), Tally(rs);
      BumpCategories(t, x);
      forall i, j | 0 <= i < j < |b| ensures b[i].category != b[j].category {
        if j == |t| {
          assert t[i].category == b[i].category;
        }
      }
      forall c ensures HasCategory(b, c) <==> SomeRecordOf(rs, c) {
        if HasCategory(b, c) {
          var j :| 0 <= j < |b| && b[j].category == c;
          if j < |t| {
            assert t[j].category == c;
            assert HasCategory(t, c);
            var r :| r in init && r.category == c;
            assert r in rs;
          } else {
            assert x in rs;
          }
        }
        if SomeRecordOf(rs, c) {
          var r :| r in rs && r.category == c;
          if r in init {
            assert SomeRecordOf(init, c);
            var j :| 0 <= j < |t| && t[j].category == c;
            assert b[j].category == c;
          } else {
            assert r == x;
            if |b| == |t| {
              var j :| 0 <= j < |t| && t[j].category == c;
              assert b[j].category == c;
            } else {
              assert b[|t|].category == c;
            }
          }
        }
      }
    }
  }

  /** A category no record has adds up to 0. */
  lemma {:induction false} AbsentCategorySum(rs: seq<Record>, c: string)
    requires forall r :: r in rs ==> r.category != c
    ensures CategorySum(rs, c) == 0
  {
    if rs != [] {
      var init, x := rs[..|rs| - 1], rs[|rs| - 1];
      assert rs == init + [x];
      AbsentCategorySum(init, c);
      SumWhereSnoc(init, x, InCategory(c));
    }
  }

  /** After a bump, each entry of the table still holds the sum of its category's records. */
  lemma BumpEntrySum(init: seq<Record>, x: Record, i: nat)
    requires forall j :: 0 <= j < |Tally(init)| ==> Tally(init)[j].total == CategorySum(init, Tally(init)[j].category)
    requires DistinctCategories(Tally(init))
    requires forall c :: HasCategory(Tally(init), c) <==> SomeRecordOf(init, c)
    requires i < |Bump(Tally(init), x)|
    ensures Bump(Tally(init), x)[i].total == CategorySum(init + [x], Bump(Tally(init), x)[i].category)
  {
    var t := Tally(init);
    var b := Bump(t, x);
    var k := IndexOfCategory(t, x.category);
    var c := b[i].category;
    SumWhereSnoc(init, x, InCategory(c));
    if k == |t| && i == |t| {
      assert !HasCategory(t, x.category);
      AbsentCategorySum(init, c);
    } else if i != k {
      assert b[i] == t[i] && c != x.category;
    }
  }

  /** Each category's total in the table is the sum of the amounts of the records of that
      category. */
  lemma {:induction false} TallySums(rs: seq<Record>)
    ensures forall i :: 0 <= i < |Tally(rs)| ==> Tally(rs)[i].total == CategorySum(rs, Tally(rs)[i].category)
  {
    if rs != [] {
      var init, x := rs[..|rs| - 1], rs[|rs| - 1];
      assert rs == init + [x];
      TallySums(init);
      TallyCategories(init);
      forall i | 0 <= i < |Tally(rs)| ensures Tally(rs)[i].total == CategorySum(rs, Tally(rs)[i].category) {
        BumpEntrySum(init, x, i);
      }
    }
  }

  /** The totals of a table, added up. */
  function Amounts(t: seq<CategoryTotal>): int {
    if t == [] then 0 else Amounts(t[..|t| - 1]) + t[|t| - 1].total
  }

  lemma {:induction false} AmountsAppend(a: seq<CategoryTotal>, b: seq<CategoryTotal>)
    ensures Amounts(a + b) == Amounts(a) + Amounts(b)
  {
    if b != [] {
      assert (a + b)[..|a + b| - 1] == a + b[..|b| - 1];
      AmountsAppend(a, b[..|b| - 1]);
    } else {
      assert a + b == a;
    }
  }

  lemma AmountsCons(x: CategoryTotal, s: seq<CategoryTotal>)
    ensures Amounts([x] + s) == x.total + Amounts(s)
  {
    AmountsAppend([x], s);
    assert [x][..0] == [];
  }

  lemma AmountsReplace(t: seq<CategoryTotal>, i: nat, y: CategoryTotal)
    requires i < |t|
    ensures Amounts(t[i := y]) == Amounts(t) - t[i].total + y.total
  {
    assert t == t[..i] + [t[i]] + t[i + 1..];
    assert t[i := y] == t[..i] + [y] + t[i + 1..];
    AmountsAppend(t[..i] + [t[i]], t[i + 1..]);
    AmountsAppend(t[..i] + [y], t[i + 1..]);
    AmountsAppend(t[..i], [t[i]]);
    AmountsAppend(t[..i], [y]);
    assert [y][..0] == [] && [t[i]][..0] == [];
  }

  /** A bump adds the record's amount to what the table's totals add up to. */
  lemma AmountsBump(t: seq<CategoryTotal>, x: Record)
    ensures Amounts(Bump(t, x)) == Amounts(t) + x.amount
  {
    var k := IndexOfCategory(t, x.category);
    if k < |t| {
      AmountsReplace(t, k, CategoryTotal(x.category, t[k].total + x.amount));
    } else {
      assert (t + [CategoryTotal(x.category, x.amount)])[..|t|] == t;
    }
  }

  /** The table's totals add up to the total of the records: nothing is lost or counted twice. */
  lemma {:induction false} TallyAmounts(rs: seq<Record>)
    ensures Amounts(Tally(rs)) == Total(rs)
  {
    if rs != [] {
      var init, x := rs[..|rs| - 1], rs[|rs| - 1];
      TallyAmounts(init);
      AmountsBump(Tally(init), x);
    }
  }

  // ---------------------------------------------------------------- sorting and the top five

  /** `sort((a, b) => b[1] - a[1])` is at most 0: `a` may come first when its total is not
      smaller. */
  predicate LargerFirst(a: CategoryTotal, b: CategoryTotal) {
    b.total <= a.total
  }

  lemma LargerFirstIsTotalPreorder()
    ensures TotalPreorder(LargerFirst)
  {
  }

  lemma {:induction false} AmountsInsert(x: CategoryTotal, s: seq<CategoryTotal>)
    ensures Amounts(Insert(x, s, LargerFirst)) == x.total + Amounts(s)
  {
    if s == [] || LargerFirst(x, s[0]) {
      AmountsCons(x, s);
    } else {
      AmountsInsert(x, s[1..]);
      AmountsCons(s[0], Insert(x, s[1..], LargerFirst));
      AmountsCons(s[0], s[1..]);
      assert [s[0]] + s[1..] == s;
    }
  }

  /** Sorting a table does not change what its totals add up to. */
  lemma {:induction false} AmountsSort(s: seq<CategoryTotal>)
    ensures Amounts(Sort(s, LargerFirst)) == Amounts(s)
  {
    if s != [] {
      AmountsSort(s[1..]);
      AmountsInsert(s[0], Sort(s[1..], LargerFirst));
      AmountsCons(s[0], s[1..]);
      assert [s[0]] + s[1..] == s;
    }
  }

  const TOP_COUNT: nat := 5
  const OTHERS_LABEL: string := "Others"

  /** What `showAnalytics` computes from the category table. */
  datatype Breakdown = Breakdown(
    sorted: seq<CategoryTotal>,
    totalAmount: int,
    top: seq<CategoryTotal>,
    others: seq<CategoryTotal>,
    othersTotal: int,
    pieData: seq<CategoryTotal>)

  /** `sortedCategories`, `totalAmount`, `top5 = slice(0, 5)`, `others = slice(5)`,
      `othersTotal`, and `pieData`: the top five plus an "Others" slice when its total is above
      0. */
  function BreakdownOf(t: seq<CategoryTotal>): Breakdown {
    var sorted := Sort(t, LargerFirst);
    var n := if |sorted| < TOP_COUNT then |sorted| else TOP_COUNT;
    var top, others := sorted[..n], sorted[n..];
    var othersTotal := Amounts(others);
    Breakdown(sorted, Amounts(sorted), top, others, othersTotal,
      top + (if othersTotal > 0 then [CategoryTotal(OTHERS_LABEL, othersTotal)] else []))
  }

  /** The records of one kind on or after the cutoff date: `e.date >= cutoffStr`. */
  function OnOrAfter(cutoff: string): Record -> bool {
    (r: Record) => StrLe(cutoff, r.date)
  }

  function InWindow(rs: seq<Record>, cutoff: string): seq<Record> {
    Where(rs, OnOrAfter(cutoff))
  }

  /** `showAnalytics(days, type)` for the cutoff date the window starts at. */
  method ShowAnalytics(l: Ledger, kind: Kind, cutoff: string) returns (b: Breakdown)
    ensures b == BreakdownOf(Tally(InWindow(l.Of(kind), cutoff)))
  {
    var window := InWindow(l.Of(kind), cutoff);
    var totals := CategoryTotals(window);
    b := BreakdownOf(totals);
  }

  /** Two tables with the same entries, in whatever order, name the same categories. */
  lemma SameEntriesSameCategories(a: seq<CategoryTotal>, b: seq<CategoryTotal>, c: string)
    requires multiset(a) == multiset(b)
    ensures HasCategory(a, c) ==> HasCategory(b, c)
  {
    if HasCategory(a, c) {
      var j :| 0 <= j < |a| && a[j].category == c;
      assert a[j] in multiset(b);
      var k :| 0 <= k < |b| && b[k] == a[j];
    }
  }

  /** The sorted table of records `rs` lists each category of the records once, with the sum of
      its records, largest total first. */
  lemma SortedTableSpec(rs: seq<Record>)
    ensures var sorted := BreakdownOf(Tally(rs)).sorted;
      && multiset(sorted) == multiset(Tally(rs))
      && |sorted| == |Tally(rs)|
      && (forall i, j :: 0 <= i < j < |sorted| ==> sorted[i].total >= sorted[j].total)
      && (forall e :: e in sorted ==> e.total == CategorySum(rs, e.category))
      && (forall c :: HasCategory(sorted, c) <==> SomeRecordOf(rs, c))
  {
    var t := Tally(rs);
    var sorted := Sort(t, LargerFirst);
    LargerFirstIsTotalPreorder();
    SortSorted(t, LargerFirst);
    TallySums(rs);
    TallyCategories(rs);
    assert |multiset(sorted)| == |multiset(t)|;
    forall e | e in sorted ensures e.total == CategorySum(rs, e.category) {
      assert e in multiset(t);
    }
    forall c ensures HasCategory(sorted, c) <==> HasCategory(t, c) {
      SameEntriesSameCategories(t, sorted, c);
      SameEntriesSameCategories(sorted, t, c);
    }
  }

  /** The top five and the others make up the sorted table, and the top five's totals plus the
      "Others" total add up to the total amount, which is the total of the records. */
  lemma BreakdownSums(rs: seq<Record>)
    ensures var b := BreakdownOf(Tally(rs));
      && b.top + b.others == b.sorted
      && |b.top| <= TOP_COUNT
      && (|b.sorted| > TOP_COUNT ==> |b.top| == TOP_COUNT)
      && Amounts(b.top) + b.othersTotal == b.totalAmount == Total(rs)
  {
    var b := BreakdownOf(Tally(rs));
    AmountsSort(Tally(rs));
    TallyAmounts(rs);
    AmountsAppend(b.top, b.others);
    assert b.top + b.others == b.sorted;
  }

  /** The pie has the top five slices, then an "Others" slice exactly when the others add up to
      more than 0; so at most six slices, and none exactly when there are no records. */
  lemma BreakdownPie(rs: seq<Record>)
    ensures var b := BreakdownOf(Tally(rs));
      && |b.pieData| <= TOP_COUNT + 1
      && b.pieData[..|b.top|] == b.top
      && (|b.pieData| == |b.top| + 1 <==> b.othersTotal > 0)
      && (b.othersTotal > 0 ==> b.pieData[|b.top|] == CategoryTotal(OTHERS_LABEL, b.othersTotal))
      && (b.pieData == [] <==> rs == [])
  {
    var b := BreakdownOf(Tally(rs));
    SortedTableSpec(rs);
    if rs != [] {
      BumpCategories(Tally(rs[..|rs| - 1]), rs[|rs| - 1]);
      assert b.top != [];
    }
  }

  // ---------------------------------------------------------------- the trend series

  function OnDay(d: string): Record -> bool {
    (r: Record) => r.date == d
  }

  /** The total of the records dated `d`: the bucket of day `d`. */
  function DayTotal(rs: seq<Record>, d: string): int {
    SumWhere(rs, OnDay(d))
  }

  /** `out` is the table `byDate` with the records of `rs` added to the days it has. */
  predicate Bucketed(byDate: map<string, int>, rs: seq<Record>, out: map<string, int>) {
    && out.Keys == byDate.Keys
    && forall d :: d in out ==> out[d] == byDate[d] + DayTotal(rs, d)
  }

  /** `rs.forEach(e => { if (byDate.hasOwnProperty(e.date)) byDate[e.date] += Number(e.amount) })`:
      each day already in the table gains the records of that day; no day is added. */
  method AddByDate(byDate: map<string, int>, rs: seq<Record>) returns (out: map<string, int>)
    ensures Bucketed(byDate, rs, out)
  {
    out := byDate;
    var i := 0;
    while i < |rs|
      invariant 0 <= i <= |rs|
      invariant Bucketed(byDate, rs[..i], out)
    {
      var r := rs[i];
      ghost var prev := out;
      if r.date in out {
        out := out[r.date := out[r.date] + r.amount];
      }
      BucketStep(byDate, prev, rs[..i], r, out);
      assert rs[..i + 1] == rs[..i] + [r];
      i := i + 1;
    }
    assert rs[..|rs|] == rs;
  }

  /** A table with a 0 bucket for each of `dates` and no other day. */
  ghost predicate ZeroBuckets(dates: seq<string>, byDate: map<string, int>) {
    && (forall d :: d in byDate <==> d in dates)
    && forall d :: d in byDate ==> byDate[d] == 0
  }

  /** The countdown loop of `renderTrendChart`: from `days - 1` down to 0 it appends the day to
      the labels and opens a 0 bucket for it in both tables. */
  method DayBuckets(days: nat, dayOf: nat -> string)
    returns (dates: seq<string>, incomeByDate: map<string, int>, expenseByDate: map<string, int>)
    ensures |dates| == days
    ensures forall k :: 0 <= k < days ==> dates[k] == dayOf(days - 1 - k)
    ensures ZeroBuckets(dates, incomeByDate) && ZeroBuckets(dates, expenseByDate)
  {
    dates := [];
    incomeByDate := map[];
    expenseByDate := map[];
    var i: int := days - 1;
    while i >= 0
      invariant -1 <= i < days
      invariant |dates| == days - 1 - i
      invariant forall k :: 0 <= k < |dates| ==> dates[k] == dayOf(days - 1 - k)
      invariant ZeroBuckets(dates, incomeByDate) && ZeroBuckets(dates, expenseByDate)
    {
      var s := dayOf(i);
      dates := dates + [s];
      incomeByDate := incomeByDate[s := 0];
      expenseByDate := expenseByDate[s := 0];
      i := i - 1;
    }
  }

  /** `dates.map(d => byDate[d])`: the bucket of each label, in label order. */
  function Series(byDate: map<string, int>, dates: seq<string>): (r: seq<int>)
    requires forall d :: d in dates ==> d in byDate
    ensures |r| == |dates| && forall k :: 0 <= k < |dates| ==> r[k] == byDate[dates[k]]
  {
    seq(|dates|, k requires 0 <= k < |dates| => byDate[dates[k]])
  }

  /** One step of the `forEach`: adding record `r` to the buckets keeps them the buckets of the
      records seen so far. */
  lemma BucketStep(byDate: map<string, int>, prev: map<string, int>, done: seq<Record>, r: Record,
                   out: map<string, int>)
    requires Bucketed(byDate, done, prev)
    requires out == if r.date in prev then prev[r.date := prev[r.date] + r.amount] else prev
    ensures Bucketed(byDate, done + [r], out)
  {
    forall d | d in out ensures out[d] == byDate[d] + DayTotal(done + [r], d) {
      DayTotalSnoc(done, r, d);
    }
  }

  /** `renderTrendChart(data, days)` without the chart: `dayOf(i)` is the date string of the day
      `i` days before today. The countdown loop lists the window's days oldest first and puts a
      0 bucket for each; the records of each kind are then added to the bucket of their day. */
  method RenderTrend(l: Ledger, days: nat, dayOf: nat -> string)
    returns (dates: seq<string>, incomeSeries: seq<int>, expenseSeries: seq<int>)
    ensures |dates| == days
    ensures forall k :: 0 <= k < days ==> dates[k] == dayOf(days - 1 - k)
    ensures |incomeSeries| == days && |expenseSeries| == days
    ensures forall k :: 0 <= k < days ==> incomeSeries[k] == DayTotal(l.income, dates[k])
    ensures forall k :: 0 <= k < days ==> expenseSeries[k] == DayTotal(l.expenses, dates[k])
  {
    var incomeZeros, expenseZeros;
    dates, incomeZeros, expenseZeros := DayBuckets(days, dayOf);
    var incomeByDate := AddByDate(incomeZeros, l.income);
    var expenseByDate := AddByDate(expenseZeros, l.expenses);
    FilledBuckets(dates, incomeZeros, l.income, incomeByDate);
    FilledBuckets(dates, expenseZeros, l.expenses, expenseByDate);
    incomeSeries := Series(incomeByDate, dates);
    expenseSeries := Series(expenseByDate, dates);
  }

  /** Zero buckets for the window's days, filled with the records, hold each day's total. */
  lemma FilledBuckets(dates: seq<string>, zeros: map<string, int>, rs: seq<Record>, out: map<string, int>)
    requires ZeroBuckets(dates, zeros) && Bucketed(zeros, rs, out)
    ensures forall d :: d in dates ==> d in out && out[d] == DayTotal(rs, d)
    ensures forall k :: 0 <= k < |dates| ==> dates[k] in out && out[dates[k]] == DayTotal(rs, dates[k])
  {
    forall d | d in dates ensures d in out && out[d] == DayTotal(rs, d) {
      assert d in zeros;
    }
    forall k | 0 <= k < |dates| ensures dates[k] in out && out[dates[k]] == DayTotal(rs, dates[k]) {
      assert dates[k] in dates;
    }
  }

  /** A further record adds its amount to the bucket of its own day and to no other: a record
      dated outside the window changes no bucket of it. */
  lemma DayTotalSnoc(rs: seq<Record>, x: Record, d: string)
    ensures DayTotal(rs + [x], d) == DayTotal(rs, d) + (if x.date == d then x.amount else 0)
  {
    SumWhereSnoc(rs, x, OnDay(d));
  }
}
