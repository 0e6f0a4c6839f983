/** The `Transaction` and `Budget` records of model.py and the defaults
    their `__post_init__` fills in. The clock is a parameter: `today` stands
    for `date.today()` and `now` for `datetime.now()`. */
module Transactions {
  import opened Outcomes
  import opened Dates

  datatype Transaction = Transaction(
    id: Option<int>,
    amount: real,
    category: string,
    description: string,
    transactionType: string,
    date: Option<CalendarDate>,
    createdAt: Option<DateTime>,
    tags: string)

  /** `Transaction()` before `__post_init__`: every field at its declared default. */
  const DefaultTransaction: Transaction :=
    Transaction(None, 0.0, "", "", "expense", None, None, "")

  /** `Transaction.__post_init__`: a missing date becomes today and a missing
      creation time becomes now; nothing else is touched. */
  function CompleteTransaction(t: Transaction, today: CalendarDate, now: DateTime): (r: Transaction)
    ensures r.date.Some? && r.createdAt.Some?
    ensures t.date.Some? ==> r.date == t.date
    ensures t.date.None? ==> r.date == Some(today)
    ensures t.createdAt.Some? ==> r.createdAt == t.createdAt
    ensures t.createdAt.None? ==> r.createdAt == Some(now)
    ensures r.(date := t.date, createdAt := t.createdAt) == t
  {
    var withDate := if t.date.None? then t.(date := Some(today)) else t;
    if withDate.createdAt.None? then withDate.(createdAt := Some(now)) else withDate
  }

  /** A transaction whose date and creation time are both supplied comes out
      unchanged, whatever the clock says. */
  lemma SuppliedTransactionUnchanged(t: Transaction, today: CalendarDate, now: DateTime)
    requires t.date.Some? && t.createdAt.Some?
    ensures CompleteTransaction(t, today, now) == t
  {
  }

  /** Running the defaults twice, even with a later clock, changes nothing more. */
  lemma CompleteTransactionIdempotent(t: Transaction, today: CalendarDate, now: DateTime,
                                      today': CalendarDate, now': DateTime)
    ensures CompleteTransaction(CompleteTransaction(t, today, now), today', now')
            == CompleteTransaction(t, today, now)
  {
    SuppliedTransactionUnchanged(CompleteTransaction(t, today, now), today', now');
  }

  /** A default-constructed transaction is an expense dated today. */
  lemma DefaultTransactionIsTodaysExpense(today: CalendarDate, now: DateTime)
    ensures CompleteTransaction(DefaultTransaction, today, now)
            == Transaction(None, 0.0, "", "", "expense", Some(today), Some(now), "")
  {
  }

  datatype Budget = Budget(
    id: Option<int>,
    category: string,
    amount: real,
    period: string,
    createdAt: Option<DateTime>)

  const DefaultBudget: Budget := Budget(None, "", 0.0, "monthly", None)

  /** `Budget.__post_init__`: a missing creation time becomes now. */
  function CompleteBudget(b: Budget, now: DateTime): (r: Budget)
    ensures r.createdAt.Some?
    ensures b.createdAt.Some? ==> r == b
    ensures b.createdAt.None? ==> r.createdAt == Some(now)
    ensures r.(createdAt := b.createdAt) == b
  {
    if b.createdAt.None? then b.(createdAt := Some(now)) else b
  }

  lemma CompleteBudgetIdempotent(b: Budget, now: DateTime, now': DateTime)
    ensures CompleteBudget(CompleteBudget(b, now), now') == CompleteBudget(b, now)
  {
  }
}
