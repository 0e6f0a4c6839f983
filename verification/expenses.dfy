/** Expense records and the selection the `get_expenses` and `get_summary`
    endpoints (controller.py) apply before using them: owner, optional
    category, inclusive date bounds, newest first, at most `limit` rows. */
module Expenses {
  import opened Outcomes
  import opened Dates

  /** One row of the expenses table, with its category's name joined in. */
  datatype Expense = Expense(
    id: int,
    owner: int,
    description: string,
    amount: real,
    categoryId: int,
    categoryName: string,
    date: CalendarDate)

  /** The optional `start_date` / `end_date` query arguments; an absent or
      empty argument is `None`. */
  datatype DateRange = DateRange(start: Option<CalendarDate>, end: Option<CalendarDate>)

  const Unbounded: DateRange := DateRange(None, None)

  /** `Expense.date >= start` and `Expense.date <= end`, each only when given. */
  predicate InRange(d: CalendarDate, r: DateRange) {
    && (r.start.None? || OnOrBefore(r.start.value, d))
    && (r.end.None? || OnOrBefore(d, r.end.value))
  }

  /** The `category_id` filter: absent and `0` (falsy) impose nothing. */
  predicate InCategory(e: Expense, categoryId: Option<int>) {
    categoryId.None? || categoryId.value == 0 || e.categoryId == categoryId.value
  }

  /** The conjunction of all filters one query applies. */
  predicate Selected(e: Expense, owner: int, categoryId: Option<int>, r: DateRange) {
    e.owner == owner && InCategory(e, categoryId) && InRange(e.date, r)
  }

  /** The rows the query's `WHERE` keeps, in their original order. */
  function Filter(es: seq<Expense>, owner: int, categoryId: Option<int>, r: DateRange): (out: seq<Expense>)
    ensures |out| <= |es|
    ensures forall e :: e in out <==> e in es && Selected(e, owner, categoryId, r)
    ensures multiset(out) <= multiset(es)
  {
    if |es| == 0 then []
    else
      var rest := Filter(es[1..], owner, categoryId, r);
      assert es == [es[0]] + es[1..];
      if Selected(es[0], owner, categoryId, r) then [es[0]] + rest else rest
  }

  /** Filtering distributes over concatenation, so the relative order of
      the kept rows is the original one. */
  lemma {:induction false} FilterConcat(a: seq<Expense>, b: seq<Expense>, owner: int,
                                        categoryId: Option<int>, r: DateRange)
    ensures Filter(a + b, owner, categoryId, r)
         == Filter(a, owner, categoryId, r) + Filter(b, owner, categoryId, r)
  {
    if |a| > 0 {
      assert (a + b)[1..] == a[1..] + b;
      FilterConcat(a[1..], b, owner, categoryId, r);
    } else {
      assert a + b == b;
    }
  }

  /** Without a category or date filter, the owner's rows pass unchanged. */
  lemma {:induction false} NoFilterKeepsAll(es: seq<Expense>, owner: int, categoryId: Option<int>)
    requires forall e :: e in es ==> e.owner == owner
    requires categoryId.None? || categoryId == Some(0)
    ensures Filter(es, owner, categoryId, Unbounded) == es
  {
    if |es| > 0 {
      assert es == [es[0]] + es[1..];
      assert forall e :: e in es[1..] ==> e in es;
      NoFilterKeepsAll(es[1..], owner, categoryId);
      assert Selected(es[0], owner, categoryId, Unbounded);
    }
  }

  /** Both bounds are inclusive: an expense dated exactly on a bound passes. */
  lemma BoundsInclusive(d: CalendarDate, start: CalendarDate, end: CalendarDate)
    ensures d == start && OnOrBefore(d, end) ==> InRange(d, DateRange(Some(start), Some(end)))
    ensures d == end && OnOrBefore(start, d) ==> InRange(d, DateRange(Some(start), Some(end)))
    ensures InRange(d, DateRange(Some(start), Some(end))) ==> OnOrBefore(start, end)
  {
  }

  /** Newest first: `ORDER BY date DESC`. */
  predicate NewestFirst(s: seq<Expense>) {
    forall i, j :: 0 <= i < j < |s| ==> OnOrBefore(s[j].date, s[i].date)
  }

  function InsertNewestFirst(e: Expense, s: seq<Expense>): (r: seq<Expense>)
    requires NewestFirst(s)
    ensures NewestFirst(r)
    ensures forall x :: x in r ==> x == e || x in s
    ensures multiset(r) == multiset(s) + multiset{e}
  {
    if |s| == 0 then [e]
    else if OnOrBefore(s[0].date, e.date) then [e] + s
    else
      var rest := InsertNewestFirst(e, s[1..]);
      assert s == [s[0]] + s[1..];
      HeadBeforeInserted(e, s, rest);
      [s[0]] + rest
  }

  /** When `e` is older than the head of `s`, the head can stay in front of
      the rest with `e` inserted. */
  lemma HeadBeforeInserted(e: Expense, s: seq<Expense>, rest: seq<Expense>)
    requires NewestFirst(s) && |s| > 0 && !OnOrBefore(s[0].date, e.date)
    requires NewestFirst(rest)
    requires forall x :: x in rest ==> x == e || x in s[1..]
    ensures NewestFirst([s[0]] + rest)
  {
    var r := [s[0]] + rest;
    forall x | x in rest
      ensures OnOrBefore(x.date, s[0].date)
    {
      if x != e {
        var k :| 0 <= k < |s[1..]| && s[1..][k] == x;
        assert s[k + 1] == x;
      }
    }
    forall i, j | 0 <= i < j < |r|
      ensures OnOrBefore(r[j].date, r[i].date)
    {
      assert r[j] == rest[j - 1];
      if i > 0 {
        assert r[i] == rest[i - 1];
      } else {
        assert r[j] in rest;
      }
    }
  }

  /** A rearrangement of `s` ordered newest first (ties in some order). */
  function SortNewestFirst(s: seq<Expense>): (r: seq<Expense>)
    ensures NewestFirst(r)
    ensures multiset(r) == multiset(s)
  {
    if |s| == 0 then []
    else
      assert s == [s[0]] + s[1..];
      InsertNewestFirst(s[0], SortNewestFirst(s[1..]))
  }

  /** Cutting a newest-first sequence keeps rows at least as new as every
      row it drops. */
  lemma PrefixIsNewest(sorted: seq<Expense>, n: nat, e: Expense, i: int)
    requires NewestFirst(sorted) && n <= |sorted|
    requires e in sorted && e !in sorted[..n] && 0 <= i < n
    ensures OnOrBefore(e.date, sorted[i].date)
  {
    var j :| 0 <= j < |sorted| && sorted[j] == e;
  }

  lemma CutFacts(kept: seq<Expense>, sorted: seq<Expense>, n: nat)
    requires multiset(sorted) == multiset(kept) && NewestFirst(sorted) && n <= |sorted|
    ensures forall e :: e in sorted[..n] ==> e in kept
    ensures NewestFirst(sorted[..n])
    ensures multiset(sorted[..n]) <= multiset(kept)
    ensures forall e, i :: e in kept && e !in sorted[..n] && 0 <= i < n
              ==> OnOrBefore(e.date, sorted[..n][i].date)
  {
    assert sorted == sorted[..n] + sorted[n..];
    assert multiset(sorted) == multiset(sorted[..n]) + multiset(sorted[n..]);
    forall e | e in sorted[..n]
      ensures e in kept
    {
      assert e in multiset(sorted);
    }
    forall e, i | e in kept && e !in sorted[..n] && 0 <= i < n
      ensures OnOrBefore(e.date, sorted[..n][i].date)
    {
      assert e in multiset(kept);
      assert e in sorted;
      PrefixIsNewest(sorted, n, e, i);
    }
  }

  /** `get_expenses`: the owner's rows that pass the filters, newest first,
      cut to `limit`. */
  function ListExpenses(all: seq<Expense>, owner: int, categoryId: Option<int>,
                        r: DateRange, limit: nat): (out: seq<Expense>)
    ensures |out| == if |Filter(all, owner, categoryId, r)| < limit
                     then |Filter(all, owner, categoryId, r)| else limit
    ensures forall e :: e in out ==> e in all && Selected(e, owner, categoryId, r)
    ensures NewestFirst(out)
    ensures multiset(out) <= multiset(Filter(all, owner, categoryId, r))
    ensures forall e, i :: e in all && Selected(e, owner, categoryId, r) && e !in out && 0 <= i < |out|
              ==> OnOrBefore(e.date, out[i].date)
  {
    var kept := Filter(all, owner, categoryId, r);
    var sorted := SortNewestFirst(kept);
    var n := if |sorted| < limit then |sorted| else limit;
    CutFacts(kept, sorted, n);
    sorted[..n]
  }
}
