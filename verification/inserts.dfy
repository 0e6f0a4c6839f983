/** The `INSERT` model.py sends from `add_transaction`: a fixed column list
    and one placeholder per column, in the dialect's style. */
module Inserts {
  import opened Outcomes
  import opened Text
  import opened Dates
  import opened Transactions
  import opened Queries

  /** `sep.join(parts)`. */
  function Join(parts: seq<string>, sep: string): string {
    if |parts| == 0 then ""
    else if |parts| == 1 then parts[0]
    else Join(parts[..|parts| - 1], sep) + sep + parts[|parts| - 1]
  }

  /** `[s] * n`. */
  function Repeat(s: string, n: nat): (r: seq<string>)
    ensures |r| == n && forall i :: 0 <= i < n ==> r[i] == s
  {
    seq(n, _ => s)
  }

  /** Joining parts that are in style, each holding `k` placeholders, with a
      literal separator gives `k` placeholders per part. */
  lemma {:induction false} JoinFacts(parts: seq<string>, sep: string, d: Dialect, k: nat)
    requires Literal(sep)
    requires forall i :: 0 <= i < |parts| ==> InStyle(parts[i], d) && CountChar(parts[i], Mark(d)) == k
    ensures InStyle(Join(parts, sep), d)
    ensures CountChar(Join(parts, sep), Mark(d)) == k * |parts|
  {
    if |parts| == 1 {
      assert k * |parts| == k;
    } else if |parts| > 1 {
      var init, last := parts[..|parts| - 1], parts[|parts| - 1];
      assert forall i :: 0 <= i < |init| ==> init[i] == parts[i];
      JoinFacts(init, sep, d, k);
      LiteralFacts(sep, d);
      InStyleConcat(Join(init, sep), sep, d);
      InStyleConcat(Join(init, sep) + sep, last, d);
      MulSucc(k, |init|);
    }
  }

  lemma MulSucc(k: nat, n: nat)
    ensures k * (n + 1) == k * n + k
  {
  }

  /** The columns `add_transaction` inserts, in the order of its column list. */
  datatype Column = AmountColumn | CategoryColumn | DescriptionColumn | TypeColumn | DateColumn | TagsColumn

  function ColumnName(c: Column): string {
    match c
    case AmountColumn => "amount"
    case CategoryColumn => "category"
    case DescriptionColumn => "description"
    case TypeColumn => "transaction_type"
    case DateColumn => "date"
    case TagsColumn => "tags"
  }

  lemma ColumnNameIsLiteral(c: Column)
    ensures Literal(ColumnName(c))
  {
  }

  const InsertColumns: seq<Column> := [AmountColumn, CategoryColumn, DescriptionColumn, TypeColumn, DateColumn, TagsColumn]

  const InsertHead := "\n            INSERT INTO transactions ("
  const ValuesOpen := ")\n            VALUES ("
  const ReturningTail := ")\n            RETURNING id\n        "

  lemma InsertHeadIsLiteral() ensures Literal(InsertHead) { LiteralByChars(InsertHead); }
  lemma ValuesOpenIsLiteral() ensures Literal(ValuesOpen) { LiteralByChars(ValuesOpen); }
  lemma ReturningTailIsLiteral() ensures Literal(ReturningTail) { LiteralByChars(ReturningTail); }

  /** The value `add_transaction` binds for a column of `t`; a missing date
      is bound as SQL `NULL`. */
  function ColumnValue(t: Transaction, c: Column): Param {
    match c
    case AmountColumn => PReal(t.amount)
    case CategoryColumn => PText(t.category)
    case DescriptionColumn => PText(t.description)
    case TypeColumn => PText(t.transactionType)
    case DateColumn => if t.date.Some? then PDate(t.date.value) else PNull
    case TagsColumn => PText(t.tags)
  }

  /** The column list as written in the `INSERT`. */
  function ColumnList(cs: seq<Column>): string {
    Join(seq(|cs|, i requires 0 <= i < |cs| => ColumnName(cs[i])), ", ")
  }

  lemma ColumnListIsLiteral(cs: seq<Column>, d: Dialect)
    ensures InStyle(ColumnList(cs), d) && CountChar(ColumnList(cs), Mark(d)) == 0
  {
    var names := seq(|cs|, i requires 0 <= i < |cs| => ColumnName(cs[i]));
    forall i | 0 <= i < |names|
      ensures InStyle(names[i], d) && CountChar(names[i], Mark(d)) == 0
    {
      ColumnNameIsLiteral(cs[i]);
      LiteralFacts(names[i], d);
    }
    JoinFacts(names, ", ", d, 0);
  }

  /** The SQL text of `add_transaction`: the column list, then one
      placeholder per column. */
  function InsertSql(d: Dialect): (s: string)
    ensures InStyle(s, d) && CountChar(s, Mark(d)) == |InsertColumns|
  {
    var marks := Join(Repeat(Placeholder(d), 6), ", ");
    var columns := ColumnList(InsertColumns);
    PlaceholderFacts(d);
    JoinFacts(Repeat(Placeholder(d), 6), ", ", d, 1);
    ColumnListIsLiteral(InsertColumns, d);
    InsertHeadIsLiteral();
    ValuesOpenIsLiteral();
    ReturningTailIsLiteral();
    LiteralFacts(InsertHead, d);
    LiteralFacts(ValuesOpen, d);
    LiteralFacts(ReturningTail, d);
    InStyleConcat(InsertHead, columns, d);
    InStyleConcat(InsertHead + columns, ValuesOpen, d);
    InStyleConcat(InsertHead + columns + ValuesOpen, marks, d);
    InStyleConcat(InsertHead + columns + ValuesOpen + marks, ReturningTail, d);
    InsertHead + columns + ValuesOpen + marks + ReturningTail
  }

  /** The tuple `add_transaction` passes: `float(amount)`, category,
      description, type, date and tags. */
  function InsertParams(t: Transaction): (ps: seq<Param>)
    ensures |ps| == |InsertColumns|
    ensures forall i :: 0 <= i < |InsertColumns| ==> ps[i] == ColumnValue(t, InsertColumns[i])
  {
    [PReal(t.amount), PText(t.category), PText(t.description), PText(t.transactionType),
     if t.date.Some? then PDate(t.date.value) else PNull, PText(t.tags)]
  }

  /** `add_transaction`: six placeholders, each filled by the value of the
      column in the same position of the column list. */
  function AddTransactionQuery(d: Dialect, t: Transaction): (q: Query)
    ensures WellFormed(q, d)
    ensures |q.params| == |InsertColumns| == 6
    ensures forall i :: 0 <= i < |InsertColumns| ==> q.params[i] == ColumnValue(t, InsertColumns[i])
  {
    Query(InsertSql(d), InsertParams(t))
  }

  /** The bound values carry every column the table stores: two
      transactions that bind the same values agree on all of them. */
  lemma InsertParamsDetermineTransaction(t1: Transaction, t2: Transaction)
    requires InsertParams(t1) == InsertParams(t2)
    ensures t1.amount == t2.amount && t1.category == t2.category
    ensures t1.description == t2.description && t1.transactionType == t2.transactionType
    ensures t1.date == t2.date && t1.tags == t2.tags
  {
    assert InsertParams(t1)[0] == InsertParams(t2)[0];
    assert InsertParams(t1)[4] == InsertParams(t2)[4];
  }

  /** After `__post_init__` the date column is never bound as `NULL`: it is
      the supplied date or today. */
  lemma CompletedTransactionBindsDate(t: Transaction, today: CalendarDate, now: DateTime, d: Dialect)
    ensures AddTransactionQuery(d, CompleteTransaction(t, today, now)).params[4]
            == PDate(t.date.GetOr(today))
  {
  }
}
