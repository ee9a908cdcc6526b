/** The read-only views app.js derives from a ledger: the merged list of both kinds tagged with
    their origin, `sortTransactions`, the kind and date-range filters of `showAllEntries` and
    `generateStatement`, the recent list of the home tab, and the totals of `loadHome`. */
module Queries {
  import opened Model
  import opened Strings
  import opened Sorting

  /** An entry of a merged view: the record, its kind (`type`/`dataType`) and its index in that
      kind's sequence, which edit and delete use to find it again. */
  datatype Entry = Entry(rec: Record, kind: Kind, index: nat)

  /** `rs.map((e, i) => ({...e, type, dataType, index: i}))` */
  function Tag(rs: seq<Record>, kind: Kind): (r: seq<Entry>)
    ensures |r| == |rs| && forall i :: 0 <= i < |rs| ==> r[i] == Entry(rs[i], kind, i)
  {
    seq(|rs|, i requires 0 <= i < |rs| => Entry(rs[i], kind, i))
  }

  /** The merged view: the income entries, then the expense entries, each tagged. */
  function Merged(l: Ledger): (r: seq<Entry>)
    ensures |r| == |l.income| + |l.expenses|
  {
    Tag(l.income, Income) + Tag(l.expenses, Expense)
  }

  /** Every entry of the merged view points back at its own record, and every record of the
      ledger appears in it exactly where its kind and index say. */
  lemma MergedIndexesBack(l: Ledger)
    ensures forall e :: e in Merged(l) ==> e.index < |l.Of(e.kind)| && l.Of(e.kind)[e.index] == e.rec
    ensures forall k: Kind, i :: 0 <= i < |l.Of(k)| ==> Entry(l.Of(k)[i], k, i) in Merged(l)
  {
    var r := Merged(l);
    var a, b := Tag(l.income, Income), Tag(l.expenses, Expense);
    forall e | e in r ensures e.index < |l.Of(e.kind)| && l.Of(e.kind)[e.index] == e.rec {
      if e in a {
        var i :| 0 <= i < |a| && a[i] == e;
      } else {
        assert e in b;
        var j :| 0 <= j < |b| && b[j] == e;
      }
    }
    forall k: Kind, i | 0 <= i < |l.Of(k)| ensures Entry(l.Of(k)[i], k, i) in r {
      if k == Income { assert r[i] == a[i]; } else { assert r[|a| + i] == b[i]; }
    }
  }

  // ---------------------------------------------------------------- sorting

  /** `(e.timestamp || 0)` */
  function Ts(e: Entry): int {
    match e.rec.timestamp case Some(t) => t case None => 0
  }

  /** The comparator of `sortTransactions` is at most 0: `b.date.localeCompare(a.date)`, and on
      equal dates `(b.timestamp || 0) - (a.timestamp || 0)`. So `a` may come before `b` when its
      date is later, or the dates are equal and its timestamp is not smaller. */
  predicate NewerFirst(a: Entry, b: Entry) {
    if a.rec.date == b.rec.date then Ts(b) <= Ts(a) else StrLe(b.rec.date, a.rec.date)
  }

  /** The comparator is consistent, so the sort's result is well defined. */
  lemma NewerFirstIsTotalPreorder()
    ensures TotalPreorder(NewerFirst)
  {
    forall a: Entry, b: Entry ensures NewerFirst(a, b) || NewerFirst(b, a) {
      StrLeTotal(a.rec.date, b.rec.date);
    }
    forall a: Entry, b: Entry, c: Entry | NewerFirst(a, b) && NewerFirst(b, c) ensures NewerFirst(a, c) {
      var da, db, dc := a.rec.date, b.rec.date, c.rec.date;
      if StrLe(dc, db) && StrLe(db, da) {
        StrLeTransitive(dc, db, da);
      }
      if StrLe(db, da) && StrLe(da, db) {
        StrLeAntisymmetric(db, da);
      }
    }
  }

  /** `sortTransactions`: the stable sort under the comparator. */
  function SortTransactions(s: seq<Entry>): seq<Entry> {
    Sort(s, NewerFirst)
  }

  /** The sort gives a permutation of its input, newest date first and, on the same date, newest
      timestamp first; entries with equal date and timestamp keep their input order. */
  lemma SortTransactionsSpec(s: seq<Entry>)
    ensures var r := SortTransactions(s);
      && multiset(r) == multiset(s)
      && (forall i, j :: 0 <= i < j < |r| ==> NewerFirst(r[i], r[j]))
      && (forall z :: TiedWith(r, z, NewerFirst) == TiedWith(s, z, NewerFirst))
  {
    NewerFirstIsTotalPreorder();
    SortSorted(s, NewerFirst);
    forall z ensures TiedWith(SortTransactions(s), z, NewerFirst) == TiedWith(s, z, NewerFirst) {
      SortStable(s, z, NewerFirst);
    }
  }

  /** Two entries tie under the comparator exactly when date and timestamp are both equal. */
  lemma TiedMeansSameKey(a: Entry, b: Entry)
    ensures Tied(a, b, NewerFirst) <==> a.rec.date == b.rec.date && Ts(a) == Ts(b)
  {
    if a.rec.date != b.rec.date && StrLe(a.rec.date, b.rec.date) && StrLe(b.rec.date, a.rec.date) {
      StrLeAntisymmetric(a.rec.date, b.rec.date);
    }
  }

  // ---------------------------------------------------------------- filters

  /** `s.filter(p)` */
  function Where<T(!new)>(s: seq<T>, p: T -> bool): (r: seq<T>)
    ensures |r| <= |s|
  {
    if s == [] then [] else (if p(s[0]) then [s[0]] else []) + Where(s[1..], p)
  }

  /** The filter keeps exactly the elements that pass. */
  lemma {:induction false} WhereMembers<T(!new)>(s: seq<T>, p: T -> bool)
    ensures forall x :: x in Where(s, p) <==> x in s && p(x)
  {
    if s != [] {
      WhereMembers(s[1..], p);
      assert s == [s[0]] + s[1..];
    }
  }

  /** The kind buttons of `showAllEntries` and `showCategoryDetails`. */
  datatype KindFilter = AllKinds | OnlyIncome | OnlyExpense

  predicate Admits(f: KindFilter, e: Entry) {
    match f
    case AllKinds => true
    case OnlyIncome => e.kind == Income
    case OnlyExpense => e.kind == Expense
  }

  function Admitted(f: KindFilter): Entry -> bool {
    e => Admits(f, e)
  }

  /** Sorting a filtered view: a permutation of the filtered entries, hence exactly the entries
      that pass, each as often as in `s`, in sort order, with tied entries in their order in `s`. */
  lemma SortedWhereSpec(s: seq<Entry>, p: Entry -> bool)
    ensures var w := Where(s, p); var r := SortTransactions(w);
      && multiset(r) == multiset(w)
      && (forall e :: e in r <==> e in s && p(e))
      && (forall i, j :: 0 <= i < j < |r| ==> NewerFirst(r[i], r[j]))
      && (forall z :: TiedWith(r, z, NewerFirst) == TiedWith(w, z, NewerFirst))
  {
    var w := Where(s, p);
    var r := SortTransactions(w);
    SortTransactionsSpec(w);
    WhereMembers(s, p);
    assert forall e :: e in r <==> e in multiset(r);
    assert forall e :: e in w <==> e in multiset(w);
  }

  /** The list `showAllEntries(filter)` shows: the merged view, filtered by kind, sorted. It
      holds each admitted entry as often as the ledger does, and keeps entries with the same date
      and timestamp in their ledger order. */
  function AllEntries(l: Ledger, f: KindFilter): (r: seq<Entry>)
    ensures multiset(r) == multiset(Where(Merged(l), Admitted(f)))
    ensures forall e :: e in r <==> e in Merged(l) && Admits(f, e)
    ensures forall i, j :: 0 <= i < j < |r| ==> NewerFirst(r[i], r[j])
    ensures forall z :: TiedWith(r, z, NewerFirst) == TiedWith(Where(Merged(l), Admitted(f)), z, NewerFirst)
  {
    SortedWhereSpec(Merged(l), Admitted(f));
    SortTransactions(Where(Merged(l), Admitted(f)))
  }

  /** `i.date >= start && i.date <= end` on the date strings. */
  predicate InPeriod(e: Entry, start: string, end: string) {
    StrLe(start, e.rec.date) && StrLe(e.rec.date, end)
  }

  function Within(start: string, end: string): Entry -> bool {
    e => InPeriod(e, start, end)
  }

  /** `generateStatement`: None ("Select dates") when either date is empty; otherwise the
      entries of both kinds whose date lies in the closed range, each as often as in the ledger,
      sorted, with ties in ledger order. */
  function Statement(l: Ledger, start: string, end: string): (r: Option<seq<Entry>>)
    ensures r.None? <==> start == "" || end == ""
    ensures r.Some? ==> multiset(r.value) == multiset(Where(Merged(l), Within(start, end)))
    ensures r.Some? ==> forall e :: e in r.value <==> e in Merged(l) && InPeriod(e, start, end)
    ensures r.Some? ==> forall i, j :: 0 <= i < j < |r.value| ==> NewerFirst(r.value[i], r.value[j])
    ensures r.Some? ==> forall z ::
      TiedWith(r.value, z, NewerFirst) == TiedWith(Where(Merged(l), Within(start, end)), z, NewerFirst)
  {
    if start == "" || end == "" then None
    else
      SortedWhereSpec(Merged(l), Within(start, end));
      Some(SortTransactions(Where(Merged(l), Within(start, end))))
  }

  /** A range whose end comes before its start selects nothing. */
  lemma EmptyPeriod(l: Ledger, start: string, end: string)
    requires start != "" && end != "" && !StrLe(start, end)
    ensures Statement(l, start, end) == Some([])
  {
    var r := Statement(l, start, end).value;
    if r != [] {
      assert r[0] in r;
      StrLeTransitive(start, r[0].rec.date, end);
    }
  }

  const RECENT_COUNT: nat := 10

  /** `loadRecentTransactions`: the first ten entries of the sorted merged view. */
  function Recent(l: Ledger): (r: seq<Entry>)
    ensures |r| == if |Merged(l)| < RECENT_COUNT then |Merged(l)| else RECENT_COUNT
  {
    var s := SortTransactions(Merged(l));
    SortTransactionsSpec(Merged(l));
    assert |s| == |multiset(s)|;
    if |s| < RECENT_COUNT then s else s[..RECENT_COUNT]
  }

  /** Every entry the recent list shows is an entry of the ledger, and comes before every entry
      it leaves out. */
  lemma RecentAreNewest(l: Ledger)
    ensures forall e :: e in Recent(l) ==> e in Merged(l)
    ensures var s := SortTransactions(Merged(l));
      && Recent(l) == s[..|Recent(l)|]
      && forall i, j :: 0 <= i < |Recent(l)| <= j < |s| ==> NewerFirst(s[i], s[j])
  {
    var s := SortTransactions(Merged(l));
    SortTransactionsSpec(Merged(l));
    forall e | e in Recent(l) ensures e in Merged(l) {
      assert e in s;
      assert e in multiset(s);
    }
  }

  // ---------------------------------------------------------------- totals

  /** The three figures of `loadHome` and `showAllEntries`. */
  datatype Totals = Totals(income: int, expense: int, balance: int)

  function Summary(l: Ledger): Totals {
    var inc, exp := Total(l.income), Total(l.expenses);
    Totals(inc, exp, inc - exp)
  }

  /** The merged view summed with income counted up and expenses counted down. */
  function SignedTotal(s: seq<Entry>): int {
    if s == [] then 0
    else SignedTotal(s[..|s| - 1]) + (if s[|s| - 1].kind == Income then s[|s| - 1].rec.amount else -s[|s| - 1].rec.amount)
  }

  lemma {:induction false} SignedTotalAppend(a: seq<Entry>, b: seq<Entry>)
    ensures SignedTotal(a + b) == SignedTotal(a) + SignedTotal(b)
  {
    if b != [] {
      assert (a + b)[..|a + b| - 1] == a + b[..|b| - 1];
      SignedTotalAppend(a, b[..|b| - 1]);
    } else {
      assert a + b == a;
    }
  }

  lemma {:induction false} SignedTotalTag(rs: seq<Record>, kind: Kind)
    ensures SignedTotal(Tag(rs, kind)) == if kind == Income then Total(rs) else -Total(rs)
  {
    if rs != [] {
      var n := |rs| - 1;
      assert Tag(rs, kind)[..n] == Tag(rs[..n], kind);
      SignedTotalTag(rs[..n], kind);
    }
  }

  /** The balance is what the merged view adds up to with expenses counted negatively: the
      balance shown and the entries listed agree. */
  lemma BalanceIsSignedTotal(l: Ledger)
    ensures Summary(l).balance == SignedTotal(Merged(l))
    ensures Summary(l).income == Total(l.income) && Summary(l).expense == Total(l.expenses)
  {
    SignedTotalAppend(Tag(l.income, Income), Tag(l.expenses, Expense));
    SignedTotalTag(l.income, Income);
    SignedTotalTag(l.expenses, Expense);
  }
}
