/** The SQL text and parameter lists model.py builds for `get_transactions`
    and `add_transaction`. A query is its SQL string plus the parameters the
    driver substitutes for its placeholders, one per placeholder, in order;
    psycopg2 marks a placeholder with `%s` and sqlite3 with `?`. */
module Queries {
  import opened Outcomes
  import opened Text
  import opened Dates
  import opened Transactions

  /** `is_postgres` selects the driver and with it the placeholder style. */
  datatype Dialect = Postgres | Sqlite

  function Placeholder(d: Dialect): string {
    match d
    case Postgres => "%s"
    case Sqlite => "?"
  }

  /** The character that starts a placeholder, and the other style's one. */
  function Mark(d: Dialect): char {
    match d
    case Postgres => '%'
    case Sqlite => '?'
  }

  function OtherMark(d: Dialect): char {
    match d
    case Postgres => '?'
    case Sqlite => '%'
  }

  /** The values a query can carry. */
  datatype Param = PText(text: string) | PDate(date: CalendarDate) | PInt(number: int) | PReal(amount: real) | PNull

  datatype Query = Query(sql: string, params: seq<Param>)

  /** Text between placeholders: no character that could start either style. */
  predicate Literal(s: string) {
    '%' !in s && '?' !in s
  }

  /** Every `%` is the start of a `%s`. */
  predicate PercentsAreMarkers(s: string) {
    forall i :: 0 <= i < |s| && s[i] == '%' ==> i + 1 < |s| && s[i + 1] == 's'
  }

  /** Every placeholder character in `s` belongs to the dialect's style. */
  predicate InStyle(s: string, d: Dialect) {
    OtherMark(d) !in s && (d == Postgres ==> PercentsAreMarkers(s))
  }

  /** The SQL holds exactly one placeholder per parameter, all in the
      dialect's style. */
  predicate WellFormed(q: Query, d: Dialect) {
    CountChar(q.sql, Mark(d)) == |q.params| && InStyle(q.sql, d)
  }

  lemma LiteralFacts(s: string, d: Dialect)
    requires Literal(s)
    ensures CountChar(s, Mark(d)) == 0 && InStyle(s, d)
  {
  }

  lemma PlaceholderFacts(d: Dialect)
    ensures CountChar(Placeholder(d), Mark(d)) == 1 && InStyle(Placeholder(d), d)
  {
    if d == Postgres {
      assert Placeholder(d)[1..] == "s";
    }
  }

  /** Text in the dialect's style stays so when joined, and the placeholders add up. */
  lemma InStyleConcat(a: string, b: string, d: Dialect)
    requires InStyle(a, d) && InStyle(b, d)
    ensures InStyle(a + b, d)
    ensures CountChar(a + b, Mark(d)) == CountChar(a, Mark(d)) + CountChar(b, Mark(d))
  {
    CountCharConcat(a, b, Mark(d));
    CountCharConcat(a, b, OtherMark(d));
    if d == Postgres {
      forall i | 0 <= i < |a + b| && (a + b)[i] == '%'
        ensures i + 1 < |a + b| && (a + b)[i + 1] == 's'
      {
        if i < |a| {
          assert a[i] == '%';
        } else {
          assert b[i - |a|] == '%';
        }
      }
    }
  }

  /** Appends literal text followed by one placeholder and its parameter
      (`base_sql += f" ... {ph}"; params.append(p)`). */
  function Append(q: Query, d: Dialect, text: string, p: Param): (r: Query)
    requires Literal(text)
    ensures WellFormed(q, d) ==> WellFormed(r, d)
    ensures r.params == q.params + [p]
  {
    AppendKeepsWellFormed(q, d, text, p);
    Query(q.sql + text + Placeholder(d), q.params + [p])
  }

  lemma AppendKeepsWellFormed(q: Query, d: Dialect, text: string, p: Param)
    requires Literal(text)
    ensures WellFormed(q, d) ==> WellFormed(Query(q.sql + text + Placeholder(d), q.params + [p]), d)
  {
    if WellFormed(q, d) {
      LiteralFacts(text, d);
      PlaceholderFacts(d);
      InStyleConcat(q.sql, text, d);
      InStyleConcat(q.sql + text, Placeholder(d), d);
    }
  }

  /** `if present: base_sql += text + ph; params.append(p)`. */
  function AppendWhen(q: Query, d: Dialect, present: bool, text: string, p: Param): (r: Query)
    requires Literal(text)
    ensures WellFormed(q, d) ==> WellFormed(r, d)
    ensures r.params == q.params + (if present then [p] else [])
  {
    if present then Append(q, d, text, p) else q
  }

  /** The filters `get_transactions` accepts. Python treats `None` and `''`
      as absent; a `date` is always present when given. */
  datatype TransactionFilters = TransactionFilters(
    category: Option<string>,
    transactionType: Option<string>,
    dateFrom: Option<CalendarDate>,
    dateTo: Option<CalendarDate>)

  predicate Given(s: Option<string>) {
    s.Some? && s.value != ""
  }

  /** The SQL fragments `get_transactions` pastes together, in the order it
      appends them. The builder below is stated over any fragments free of
      placeholder characters; `TransactionsSql` holds the source's text. */
  datatype SelectSql = SelectSql(
    select: string,
    categoryTest: string,
    typeTest: string,
    fromTest: string,
    toTest: string,
    limitClause: string,
    offsetClause: string)

  predicate PlaceholderFree(t: SelectSql) {
    && Literal(t.select) && Literal(t.categoryTest) && Literal(t.typeTest)
    && Literal(t.fromTest) && Literal(t.toTest) && Literal(t.limitClause) && Literal(t.offsetClause)
  }

  const SelectTransactions := "SELECT * FROM transactions WHERE 1=1"
  const CategoryTest := " AND category = "
  const TypeTest := " AND transaction_type = "
  const FromTest := " AND date >= "
  const ToTest := " AND date <= "
  const LimitClause := " ORDER BY date DESC, created_at DESC LIMIT "
  const OffsetClause := " OFFSET "

  const TransactionsSql := SelectSql(SelectTransactions, CategoryTest, TypeTest, FromTest, ToTest, LimitClause, OffsetClause)

  /** A string is literal when no character of it is a marker. */
  lemma LiteralByChars(s: string)
    requires forall i :: 0 <= i < |s| ==> s[i] != '%' && s[i] != '?'
    ensures Literal(s)
  {
  }

  /** One lemma per fragment keeps each character scan small. */
  lemma SelectIsLiteral() ensures Literal(SelectTransactions) { LiteralByChars(SelectTransactions); }
  lemma CategoryTestIsLiteral() ensures Literal(CategoryTest) { LiteralByChars(CategoryTest); }
  lemma TypeTestIsLiteral() ensures Literal(TypeTest) { LiteralByChars(TypeTest); }
  lemma FromTestIsLiteral() ensures Literal(FromTest) { LiteralByChars(FromTest); }
  lemma ToTestIsLiteral() ensures Literal(ToTest) { LiteralByChars(ToTest); }
  lemma LimitClauseIsLiteral() ensures Literal(LimitClause) { LiteralByChars(LimitClause); }
  lemma OffsetClauseIsLiteral() ensures Literal(OffsetClause) { LiteralByChars(OffsetClause); }

  lemma TransactionsSqlIsPlaceholderFree()
    ensures PlaceholderFree(TransactionsSql)
  {
    SelectIsLiteral();
    CategoryTestIsLiteral();
    TypeTestIsLiteral();
    FromTestIsLiteral();
    ToTestIsLiteral();
    LimitClauseIsLiteral();
    OffsetClauseIsLiteral();
  }

  /** The filter part of `get_transactions` over fragments `t`: the
      `SELECT` with one condition per present filter. */
  function FilterQuery(t: SelectSql, d: Dialect, f: TransactionFilters): (q: Query)
    requires PlaceholderFree(t)
    ensures WellFormed(q, d)
  {
    LiteralFacts(t.select, d);
    var q0 := Query(t.select, []);
    var q1 := AppendWhen(q0, d, Given(f.category), t.categoryTest, PText(f.category.GetOr("")));
    var q2 := AppendWhen(q1, d, Given(f.transactionType), t.typeTest, PText(f.transactionType.GetOr("")));
    var q3 := AppendWhen(q2, d, f.dateFrom.Some?, t.fromTest, PDate(f.dateFrom.GetOr(FirstDate)));
    AppendWhen(q3, d, f.dateTo.Some?, t.toTest, PDate(f.dateTo.GetOr(FirstDate)))
  }

  /** `get_transactions(limit, offset, category, transaction_type, date_from,
      date_to)` over fragments `t`: the query it sends, built as the source
      builds it, filters first, then the ordering and the page bounds. */
  function TransactionsQuery(t: SelectSql, d: Dialect, f: TransactionFilters, limit: int, offset: int): (q: Query)
    requires PlaceholderFree(t)
    ensures WellFormed(q, d)
    ensures |q.params| >= 2
    ensures q.params[|q.params| - 2] == PInt(limit) && q.params[|q.params| - 1] == PInt(offset)
  {
    Paged(FilterQuery(t, d, f), d, t.limitClause, t.offsetClause, limit, offset)
  }

  /** The ordering and the page bounds: `LIMIT {ph} OFFSET {ph}` with
      `limit` and `offset` appended to the parameters. */
  function Paged(q: Query, d: Dialect, limitClause: string, offsetClause: string, limit: int, offset: int): (r: Query)
    requires Literal(limitClause) && Literal(offsetClause)
    ensures WellFormed(q, d) ==> WellFormed(r, d)
    ensures r.params == q.params + [PInt(limit), PInt(offset)]
  {
    Append(Append(q, d, limitClause, PInt(limit)), d, offsetClause, PInt(offset))
  }

  /** One placeholder-terminated condition of a query: the literal text
      before the placeholder and the parameter that fills it. */
  datatype Condition = Condition(text: string, param: Param)

  function When(present: bool, c: Condition): seq<Condition> {
    if present then [c] else []
  }

  /** The conditions a set of filters puts in the query, in the fixed order
      category, type, start date, end date, then the page bounds. An absent
      filter contributes nothing. */
  function Conditions(t: SelectSql, f: TransactionFilters, limit: int, offset: int): (cs: seq<Condition>)
    ensures |cs| >= 2
    ensures cs[|cs| - 2] == Condition(t.limitClause, PInt(limit))
    ensures cs[|cs| - 1] == Condition(t.offsetClause, PInt(offset))
  {
    FilterConditions(t, f) + [Condition(t.limitClause, PInt(limit))] + [Condition(t.offsetClause, PInt(offset))]
  }

  function FilterConditions(t: SelectSql, f: TransactionFilters): seq<Condition> {
    When(Given(f.category), Condition(t.categoryTest, PText(f.category.GetOr(""))))
    + When(Given(f.transactionType), Condition(t.typeTest, PText(f.transactionType.GetOr(""))))
    + When(f.dateFrom.Some?, Condition(t.fromTest, PDate(f.dateFrom.GetOr(FirstDate))))
    + When(f.dateTo.Some?, Condition(t.toTest, PDate(f.dateTo.GetOr(FirstDate))))
  }

  /** Each condition's text followed by one placeholder. */
  function Render(cs: seq<Condition>, ph: string): string {
    if |cs| == 0 then [] else Render(cs[..|cs| - 1], ph) + cs[|cs| - 1].text + ph
  }

  function ParamsOf(cs: seq<Condition>): (ps: seq<Param>)
    ensures |ps| == |cs| && forall i :: 0 <= i < |cs| ==> ps[i] == cs[i].param
  {
    seq(|cs|, i requires 0 <= i < |cs| => cs[i].param)
  }

  /** `q` is `head` followed by the conditions `cs`, each with its placeholder,
      and carries the conditions' parameters in the same order. */
  predicate Renders(q: Query, d: Dialect, head: string, cs: seq<Condition>) {
    q.sql == head + Render(cs, Placeholder(d)) && q.params == ParamsOf(cs)
  }

  lemma AppendAssociates(a: string, b: string, c: string, e: string)
    ensures a + (b + c + e) == a + b + c + e
  {
  }

  lemma AppendWhenRenders(q: Query, d: Dialect, head: string, cs: seq<Condition>, present: bool, c: Condition)
    requires Literal(c.text) && Renders(q, d, head, cs)
    ensures Renders(AppendWhen(q, d, present, c.text, c.param), d, head, cs + When(present, c))
  {
    if present {
      var cs', ph := cs + [c], Placeholder(d);
      assert cs'[..|cs'| - 1] == cs;
      assert Render(cs', ph) == Render(cs, ph) + c.text + ph;
      AppendAssociates(head, Render(cs, ph), c.text, ph);
      assert ParamsOf(cs') == ParamsOf(cs) + [c.param];
    } else {
      assert cs + When(present, c) == cs;
    }
  }

  /** `get_transactions` puts one condition per present filter, in order,
      each followed by its placeholder, and passes the conditions' values
      as the parameters: placeholder `i` is filled by parameter `i`. */
  lemma FilterQueryConditions(t: SelectSql, d: Dialect, f: TransactionFilters)
    requires PlaceholderFree(t)
    ensures Renders(FilterQuery(t, d, f), d, t.select, FilterConditions(t, f))
  {
    var k1 := Condition(t.categoryTest, PText(f.category.GetOr("")));
    var k2 := Condition(t.typeTest, PText(f.transactionType.GetOr("")));
    var k3 := Condition(t.fromTest, PDate(f.dateFrom.GetOr(FirstDate)));
    var k4 := Condition(t.toTest, PDate(f.dateTo.GetOr(FirstDate)));
    var q0 := Query(t.select, []);
    assert Renders(q0, d, t.select, []);
    var q1 := AppendWhen(q0, d, Given(f.category), k1.text, k1.param);
    AppendWhenRenders(q0, d, t.select, [], Given(f.category), k1);
    var cs1 := When(Given(f.category), k1);
    assert [] + cs1 == cs1;
    var q2 := AppendWhen(q1, d, Given(f.transactionType), k2.text, k2.param);
    AppendWhenRenders(q1, d, t.select, cs1, Given(f.transactionType), k2);
    var cs2 := cs1 + When(Given(f.transactionType), k2);
    var q3 := AppendWhen(q2, d, f.dateFrom.Some?, k3.text, k3.param);
    AppendWhenRenders(q2, d, t.select, cs2, f.dateFrom.Some?, k3);
    var cs3 := cs2 + When(f.dateFrom.Some?, k3);
    AppendWhenRenders(q3, d, t.select, cs3, f.dateTo.Some?, k4);
  }

  lemma TransactionsQueryConditions(t: SelectSql, d: Dialect, f: TransactionFilters, limit: int, offset: int)
    requires PlaceholderFree(t)
    ensures Renders(TransactionsQuery(t, d, f, limit, offset), d, t.select, Conditions(t, f, limit, offset))
  {
    var cs4 := FilterConditions(t, f);
    var k5 := Condition(t.limitClause, PInt(limit));
    var k6 := Condition(t.offsetClause, PInt(offset));
    var q4 := FilterQuery(t, d, f);
    FilterQueryConditions(t, d, f);
    var q5 := AppendWhen(q4, d, true, k5.text, k5.param);
    AppendWhenRenders(q4, d, t.select, cs4, true, k5);
    AppendWhenRenders(q5, d, t.select, cs4 + [k5], true, k6);
  }

  /** Both drivers receive the same parameters; only the placeholder differs. */
  lemma DialectsAgree(t: SelectSql, f: TransactionFilters, limit: int, offset: int)
    requires PlaceholderFree(t)
    ensures TransactionsQuery(t, Postgres, f, limit, offset).params == TransactionsQuery(t, Sqlite, f, limit, offset).params
    ensures TransactionsQuery(t, Postgres, f, limit, offset).sql == t.select + Render(Conditions(t, f, limit, offset), "%s")
    ensures TransactionsQuery(t, Sqlite, f, limit, offset).sql == t.select + Render(Conditions(t, f, limit, offset), "?")
  {
    TransactionsQueryConditions(t, Postgres, f, limit, offset);
    TransactionsQueryConditions(t, Sqlite, f, limit, offset);
  }

  /** Each present filter adds exactly one parameter; the page bounds add two. */
  lemma TransactionsQueryParamCount(t: SelectSql, d: Dialect, f: TransactionFilters, limit: int, offset: int)
    requires PlaceholderFree(t)
    ensures |TransactionsQuery(t, d, f, limit, offset).params|
            == 2 + (if Given(f.category) then 1 else 0) + (if Given(f.transactionType) then 1 else 0)
                 + (if f.dateFrom.Some? then 1 else 0) + (if f.dateTo.Some? then 1 else 0)
  {
    TransactionsQueryConditions(t, d, f, limit, offset);
  }
}
