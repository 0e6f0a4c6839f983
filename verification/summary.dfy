/** The aggregation in the `get_summary` endpoint (controller.py): total,
    count, average, and totals per category name and per `YYYY-MM` month
    over the owner's expenses in the requested date range. */
module Summary {
  import opened Outcomes
  import opened Dates
  import opened Expenses

  /** The JSON object the endpoint returns. */
  datatype ExpenseSummary = ExpenseSummary(
    totalAmount: real,
    totalCount: nat,
    categoryBreakdown: map<string, real>,
    monthlyBreakdown: map<string, real>,
    averagePerExpense: real)

  /** `sum(exp.amount for exp in expenses)`, added left to right. */
  function TotalAmount(es: seq<Expense>): real {
    if |es| == 0 then 0.0 else TotalAmount(es[..|es| - 1]) + es[|es| - 1].amount
  }

  /** The two breakdowns: by category name and by `strftime('%Y-%m')`. */
  datatype Grouping = ByCategory | ByMonth

  function GroupKey(g: Grouping, e: Expense): string {
    match g
    case ByCategory => e.categoryName
    case ByMonth => MonthKey(e.date)
  }

  /** `totals[key] = totals.get(key, 0) + amount`. */
  function AddTo(totals: map<string, real>, key: string, amount: real): map<string, real> {
    totals[key := (if key in totals then totals[key] else 0.0) + amount]
  }

  /** The dictionary the loop over `expenses` builds. */
  function Breakdown(es: seq<Expense>, g: Grouping): (totals: map<string, real>)
  {
    if |es| == 0 then map[]
    else AddTo(Breakdown(es[..|es| - 1], g), GroupKey(g, es[|es| - 1]), es[|es| - 1].amount)
  }

  /** Reference definition: the total of the expenses whose group is `key`. */
  function GroupTotal(es: seq<Expense>, g: Grouping, key: string): real {
    if |es| == 0 then 0.0
    else GroupTotal(es[..|es| - 1], g, key)
         + (if GroupKey(g, es[|es| - 1]) == key then es[|es| - 1].amount else 0.0)
  }

  /** Some expense of `es` falls in group `key`. */
  predicate Occurs(es: seq<Expense>, g: Grouping, key: string) {
    exists e :: e in es && GroupKey(g, e) == key
  }

  /** The sum of `m[k]` over the keys `ks`, in no particular order. */
  ghost function SumOver(m: map<string, real>, ks: set<string>): real
    requires ks <= m.Keys
    decreases ks
  {
    if ks == {} then 0.0
    else
      var k :| k in ks;
      m[k] + SumOver(m, ks - {k})
  }

  /** The sum of the values of a map. */
  ghost function MapSum(m: map<string, real>): real {
    SumOver(m, m.Keys)
  }

  /** The order in which keys are summed does not matter: any key can go first. */
  lemma {:induction false} SumOverRemove(m: map<string, real>, ks: set<string>, k: string)
    requires ks <= m.Keys && k in ks
    ensures SumOver(m, ks) == m[k] + SumOver(m, ks - {k})
    decreases ks
  {
    var j :| j in ks && SumOver(m, ks) == m[j] + SumOver(m, ks - {j});
    if j != k {
      SumOverRemove(m, ks - {j}, k);
      SumOverRemove(m, ks - {k}, j);
      assert ks - {j} - {k} == ks - {k} - {j};
    }
  }

  /** Maps that agree on `ks` have the same sum over `ks`. */
  lemma {:induction false} SumOverAgree(m1: map<string, real>, m2: map<string, real>, ks: set<string>)
    requires ks <= m1.Keys && ks <= m2.Keys
    requires forall k :: k in ks ==> m1[k] == m2[k]
    ensures SumOver(m1, ks) == SumOver(m2, ks)
    decreases ks
  {
    if ks != {} {
      var k :| k in ks;
      SumOverRemove(m1, ks, k);
      SumOverRemove(m2, ks, k);
      SumOverAgree(m1, m2, ks - {k});
    }
  }

  /** Adding `amount` to one entry adds `amount` to the sum of the values. */
  lemma MapSumAddTo(totals: map<string, real>, key: string, amount: real)
    ensures MapSum(AddTo(totals, key, amount)) == MapSum(totals) + amount
  {
    var m := AddTo(totals, key, amount);
    SumOverRemove(m, m.Keys, key);
    var rest := totals.Keys - {key};
    assert m.Keys - {key} == rest;
    SumOverAgree(m, totals, rest);
    if key in totals {
      SumOverRemove(totals, totals.Keys, key);
    } else {
      assert rest == totals.Keys;
    }
  }

  /** The values of a breakdown add up to the total amount. */
  lemma {:induction false} BreakdownSumsToTotal(es: seq<Expense>, g: Grouping)
    ensures MapSum(Breakdown(es, g)) == TotalAmount(es)
  {
    if |es| > 0 {
      BreakdownSumsToTotal(es[..|es| - 1], g);
      MapSumAddTo(Breakdown(es[..|es| - 1], g), GroupKey(g, es[|es| - 1]), es[|es| - 1].amount);
    }
  }

  /** With no negative amounts, the total is at least every single amount
      (and so at least zero). */
  lemma {:induction false} TotalCoversEachAmount(es: seq<Expense>)
    requires forall i :: 0 <= i < |es| ==> es[i].amount >= 0.0
    ensures TotalAmount(es) >= 0.0
    ensures forall i :: 0 <= i < |es| ==> es[i].amount <= TotalAmount(es)
  {
    if |es| > 0 {
      TotalCoversEachAmount(es[..|es| - 1]);
      assert forall i :: 0 <= i < |es| - 1 ==> es[i] == es[..|es| - 1][i];
    }
  }

  /** A breakdown has an entry for exactly the groups that occur, and each
      entry is that group's total. */
  lemma BreakdownEntries(es: seq<Expense>, g: Grouping)
    ensures forall k :: k in Breakdown(es, g) <==> Occurs(es, g, k)
    ensures forall k :: k in Breakdown(es, g) ==> Breakdown(es, g)[k] == GroupTotal(es, g, k)
  {
    BreakdownKeys(es, g);
    BreakdownValues(es, g);
  }

  lemma {:induction false} BreakdownKeys(es: seq<Expense>, g: Grouping)
    ensures forall k :: k in Breakdown(es, g) <==> Occurs(es, g, k)
  {
    if |es| > 0 {
      var init, last := es[..|es| - 1], es[|es| - 1];
      assert es == init + [last];
      BreakdownKeys(init, g);
      forall k
        ensures Occurs(es, g, k) <==> Occurs(init, g, k) || GroupKey(g, last) == k
      {
        OccursAppend(init, last, g, k);
      }
    }
  }

  lemma {:induction false} BreakdownValues(es: seq<Expense>, g: Grouping)
    ensures forall k :: k in Breakdown(es, g) ==> Breakdown(es, g)[k] == GroupTotal(es, g, k)
  {
    if |es| > 0 {
      var init := es[..|es| - 1];
      BreakdownValues(init, g);
      BreakdownKeys(init, g);
      forall k | !Occurs(init, g, k)
        ensures GroupTotal(init, g, k) == 0.0
      {
        GroupTotalOfAbsent(init, g, k);
      }
    }
  }

  /** A group occurs in `init + [last]` exactly when it occurs in `init`
      or is the group of `last`. */
  lemma OccursAppend(init: seq<Expense>, last: Expense, g: Grouping, k: string)
    ensures Occurs(init + [last], g, k) <==> Occurs(init, g, k) || GroupKey(g, last) == k
  {
    if Occurs(init + [last], g, k) && GroupKey(g, last) != k {
      var e :| e in init + [last] && GroupKey(g, e) == k;
      assert e in init;
    }
  }

  /** A breakdown has at most one entry per expense. */
  lemma {:induction false} BreakdownKeyCount(es: seq<Expense>, g: Grouping)
    ensures |Breakdown(es, g).Keys| <= |es|
  {
    if |es| > 0 {
      var before := Breakdown(es[..|es| - 1], g);
      BreakdownKeyCount(es[..|es| - 1], g);
      assert Breakdown(es, g).Keys == before.Keys + {GroupKey(g, es[|es| - 1])};
    }
  }

  /** A group that does not occur totals zero. */
  lemma {:induction false} GroupTotalOfAbsent(es: seq<Expense>, g: Grouping, key: string)
    requires !Occurs(es, g, key)
    ensures GroupTotal(es, g, key) == 0.0
  {
    if |es| > 0 {
      var init, last := es[..|es| - 1], es[|es| - 1];
      assert es == init + [last];
      GroupTotalOfAbsent(init, g, key);
    }
  }

  /** When every amount is positive (as validation intends), so is every
      breakdown entry: no zero entries appear. */
  lemma {:induction false} BreakdownEntriesPositive(es: seq<Expense>, g: Grouping)
    requires forall i :: 0 <= i < |es| ==> es[i].amount > 0.0
    ensures forall k :: k in Breakdown(es, g) ==> Breakdown(es, g)[k] > 0.0
  {
    if |es| > 0 {
      BreakdownEntriesPositive(es[..|es| - 1], g);
    }
  }

  /** `total / max(count, 1)`. */
  function Average(total: real, count: nat): (avg: real)
    ensures count == 0 ==> avg == total
    ensures count > 0 ==> avg * (count as real) == total
  {
    total / (if count > 1 then count else 1) as real
  }

  /** The summary of an already selected list of expenses. */
  function Summarize(es: seq<Expense>): (s: ExpenseSummary)
    ensures s.totalCount == |es|
    ensures MapSum(s.categoryBreakdown) == s.totalAmount
    ensures MapSum(s.monthlyBreakdown) == s.totalAmount
    ensures forall k :: k in s.categoryBreakdown <==> Occurs(es, ByCategory, k)
    ensures forall k :: k in s.monthlyBreakdown <==> Occurs(es, ByMonth, k)
    ensures forall k :: k in s.categoryBreakdown ==> s.categoryBreakdown[k] == GroupTotal(es, ByCategory, k)
    ensures forall k :: k in s.monthlyBreakdown ==> s.monthlyBreakdown[k] == GroupTotal(es, ByMonth, k)
    ensures s.totalCount == 0 ==> s.totalAmount == 0.0 && s.averagePerExpense == 0.0
    ensures s.totalCount > 0 ==> s.averagePerExpense == s.totalAmount / (s.totalCount as real)
  {
    BreakdownSumsToTotal(es, ByCategory);
    BreakdownSumsToTotal(es, ByMonth);
    BreakdownEntries(es, ByCategory);
    BreakdownEntries(es, ByMonth);
    var total := TotalAmount(es);
    var average := Average(total, |es|);
    ExpenseSummary(total, |es|, Breakdown(es, ByCategory), Breakdown(es, ByMonth), average)
  }

  /** `get_summary`: the summary of the owner's expenses in the date range. */
  function GetSummary(all: seq<Expense>, owner: int, r: DateRange): (s: ExpenseSummary)
    ensures s.totalCount == |Filter(all, owner, None, r)|
    ensures s.totalAmount == TotalAmount(Filter(all, owner, None, r))
    ensures MapSum(s.categoryBreakdown) == s.totalAmount && MapSum(s.monthlyBreakdown) == s.totalAmount
    ensures forall k :: k in s.categoryBreakdown ==>
              exists e :: e in all && e.owner == owner && InRange(e.date, r) && e.categoryName == k
    ensures forall k :: k in s.categoryBreakdown <==> Occurs(Filter(all, owner, None, r), ByCategory, k)
    ensures forall k :: k in s.monthlyBreakdown <==> Occurs(Filter(all, owner, None, r), ByMonth, k)
    ensures forall k :: k in s.categoryBreakdown ==>
              s.categoryBreakdown[k] == GroupTotal(Filter(all, owner, None, r), ByCategory, k)
    ensures forall k :: k in s.monthlyBreakdown ==>
              s.monthlyBreakdown[k] == GroupTotal(Filter(all, owner, None, r), ByMonth, k)
    ensures s.totalCount > 0 ==> s.averagePerExpense == s.totalAmount / (s.totalCount as real)
    ensures s.totalCount == 0 ==> s.totalAmount == 0.0 && s.averagePerExpense == 0.0
  {
    Summarize(Filter(all, owner, None, r))
  }

  /** Amounts are added exactly: `n` expenses of the same amount total `n`
      times that amount, with no rounding drift. */
  lemma {:induction false} TotalOfEqualAmounts(es: seq<Expense>, amount: real)
    requires forall i :: 0 <= i < |es| ==> es[i].amount == amount
    ensures TotalAmount(es) == (|es| as real) * amount
  {
    if |es| > 0 {
      TotalOfEqualAmounts(es[..|es| - 1], amount);
    }
  }
}
