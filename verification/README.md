# Personal Finance Manager — a Dafny model of its data-shaping core

The Personal Finance Manager is a Flask application that records incomes
and expenses. It can run on PostgreSQL or on a local SQLite file. This
project models the parts of it that compute something. Everything else
(routing, sessions, password hashing, the database itself) is either
represented by parameters or left out, as "Left out" lists.

The modelled parts are:

- **Configuration** (`config.py`), evaluated against an explicit environment map:
  - the `postgres://` to `postgresql://` rewrite of `DATABASE_URL`;
  - how `DEBUG` and `SESSION_COOKIE_SECURE` are derived from `FLASK_ENV`, and what each subclass overrides or inherits;
  - `get_database_url`, `is_production` and `get_config`;
  - the SQLite file name that `DatabaseManager.get_connection` (model.py) strips out of the URL.
- **Request validation** (`controller.py`):
  - `validate_expense_data`, with Python's truthiness and `float()` over decoded JSON values (strings, numbers, booleans, `null`, containers), including how `float()` reads Unicode decimal digits (`"１００"` is 100) and which whitespace it trims (space, tab to carriage return and non-ASCII Unicode spaces, but not the information separators U+001C to U+001F that `str.strip()` also removes);
  - the `strip().lower()` username normalisation that `register` and `login` share, with the resulting user store.
- **Expense selection and summary** (`controller.py`):
  - the owner/category/date filters of `get_expenses` and `get_summary`;
  - newest-first ordering and the `limit` cut;
  - the `get_summary` aggregation: total, count, average, and totals per category name and per `YYYY-MM` month.
- **Records and SQL** (`model.py`):
  - the `Transaction` and `Budget` dataclasses and their `__post_init__` defaults, with the clock as a parameter;
  - the SQL text and parameter list of `get_transactions` and `add_transaction` in both placeholder styles (`%s` for psycopg2, `?` for sqlite3);
  - the start date of `get_spending_by_category`;
  - the net savings and savings rate of `get_monthly_summary`;
  - the utilisation and remaining amount of `get_budgets`.

Python exceptions are values of `Outcomes.PyError` carrying Python's
message, except where "Left out" says otherwise. An operation that can raise returns `Outcomes.Result`. Amounts are
exact `real`s, and dates are proleptic Gregorian dates in Python's range of
years 1 to 9999.

The core properties proved are:

- The breakdowns of `get_summary` sum to the total. They have exactly one entry per group that occurs, and each entry is that group's total.
- Every query built has one placeholder per parameter, all in the driver's style. Parameter `i` fills the `i`-th condition, in the source's fixed order.
- `__post_init__` fills only the missing fields and is idempotent.
- Normalised usernames ignore surrounding whitespace and ASCII case, so a registered user can log in under any such variant.
- Validation reports the first missing field in source order. Within the modelled `float()` (see "Left out"), it tells "invalid format", "not positive" and "raised" apart.

The summary adds up whatever amounts the query returns, negative ones
included (controller.py:312-325).

## Model

| member | source | states |
|---|---|---|
| Config.DatabaseUrlSetting | config.py:21-24 | A URL starting with `postgres://` has that prefix replaced once by `postgresql://`; any other value, or no value, is kept; the result never starts with `postgres://` |
| Config.DatabaseUrlSettingIdempotent | config.py:21-24 | Rewriting an already rewritten URL changes nothing |
| Config.SettingsOf | config.py:16-99 | `Config` has debug exactly when `FLASK_ENV` is `development` and secure cookies exactly when it is `production`; `ProductionConfig` forces no debug and secure cookies; `DevelopmentConfig` forces debug; the secret key is never empty |
| Config.BaseDebugExcludesSecureCookie | config.py:17-50 | In the base class debug mode and secure-only cookies never hold together |
| Config.DevelopmentInheritsCookieFlag | config.py:50-91 | `DevelopmentConfig` inherits the cookie flag computed from the environment, so with `FLASK_ENV` unset it runs in debug mode with secure-only cookies |
| Config.SqlitePathRoundTrip | model.py:69-71 | Outside production, removing `sqlite:///` from the URL `get_database_url` built gives back the configured path if and only if the path does not itself contain `sqlite:///` |
| Config.IsProduction | config.py:59-61 | Production exactly when `DATABASE_URL` is present, even when it is the empty string |
| Config.DatabaseUrl | config.py:64-69 | In production, `DATABASE_URL` after the `postgres://` rewrite; otherwise `sqlite:///` followed by the configured path |
| Config.SqlitePathOf | model.py:71 | A URL without `sqlite:///` is returned unchanged; removing the scheme never lengthens the URL and strictly shortens one that contains it |
| Config.ConnectionTarget | model.py:53-71 | PostgreSQL is used if and only if `DATABASE_URL` is set, and then the URL is `DATABASE_URL` after the `postgres://` rewrite, so it never starts with `postgres://`; otherwise the SQLite file is the configured path (when the path does not contain the scheme) |
| Config.GetConfig | config.py:103-114 | Never the base class; `DevelopmentConfig` exactly when the name (or `FLASK_ENV` when no name is given) is `development`; with neither given, `ProductionConfig` |
| Json.ToFloat | controller.py:83 | `float(value)` raises `ValueError` exactly for a string that does not parse, and gives the parsed value for one that does; an integer gives itself, a float itself, `true` 1.0 and `false` 0.0; `null`, a list or an object raises `TypeError` |
| Json.DigitToAscii | controller.py:83 | A character becomes an ASCII digit exactly when it lies in a block of ten Unicode decimal digits |
| Json.CharToAscii | controller.py:83 | Before parsing, a character becomes an ASCII digit exactly when it is a Unicode decimal digit, and becomes ASCII whitespace exactly when it is ASCII whitespace (space, tab to carriage return) or non-ASCII Unicode whitespace |
| Json.AsciiPaddingIgnored | controller.py:83 | Spaces and tab to carriage return around a numeral do not change its value or whether it parses |
| Json.SeparatorNotTrimmed | controller.py:83-87 | `float("\x1c5")` raises `ValueError`: the information separator is not trimmed |
| Json.IdeographicSpaceTrimmed | controller.py:83 | `float("\u30005")` is 5.0: the non-ASCII space is turned into a space and trimmed |
| Json.ParseDigitString | controller.py:83 | A string of ASCII decimal digits converts to the number it spells |
| Json.ParseDecimalDigits | controller.py:83 | A string of Unicode decimal digits from any script converts to the number its ASCII equivalents spell |
| Json.FullWidthDigitsParse | controller.py:83 | The full-width string `"１００"` converts to 100.0 |
| Json.PlainNumeralValue | controller.py:83 | Digits with or without a decimal point (`"12.50"`, `"5"`, `".5"`, `"5."`) convert to the decimal fraction they spell |
| Json.ExponentNumeralValue | controller.py:83 | Such a mantissa followed by `e` and an exponent converts to the mantissa times ten to the exponent |
| Json.ExponentValue | controller.py:83 | An exponent of digits, with an optional `+` or `-`, reads as that signed number |
| Json.SignedFloatValue | controller.py:83 | A leading `-` negates what the rest of the numeral converts to, and a leading `+` changes nothing |
| Json.SignedNumeralValue | controller.py:83 | After trimming, one leading sign is read and the rest is an unsigned numeral |
| Json.TwelveFifty | controller.py:83 | `float("12.50")` is 12.5 |
| Validation.ValidateExpenseData | controller.py:75-89 | A missing body raises `TypeError`; incomplete data is rejected naming a required field; accepted if and only if all fields are present and truthy and the amount converts to a float that is not `<= 0` |
| Validation.ValidateExpenseDataFinite | controller.py:75-89 | The same checks with the amount required to be a finite number greater than zero |
| Validation.FirstBlank | controller.py:77-80 | The index of the first required field that is missing or falsy, and all fields before it are present and truthy; none when all are |
| Validation.MissingFieldsInOrder | controller.py:77-80 | Field `i` is reported missing if and only if it is missing or falsy and every field before it is present and truthy |
| Validation.AcceptedAmounts | controller.py:82-89 | Accepted if and only if all fields are present and truthy and the amount converts to a float that is not `<= 0`, which includes NaN and positive infinity |
| Validation.NotPositiveAmounts | controller.py:82-85 | "Amount must be positive" exactly for complete data whose amount converts to a float `<= 0` (so not for NaN); with the finite-only check, exactly for a finite amount `<= 0` |
| Validation.UnparseableAmount | controller.py:82-87 | "Invalid amount format" exactly for complete data whose amount is an unparseable string; an exception escapes exactly for a missing body or an amount of a type `float()` refuses |
| Validation.ZeroNumberReportedMissing | controller.py:78-80 | A numeric zero (or `false`) amount is falsy and is reported as a missing field |
| Validation.ZeroStringNotPositive | controller.py:82-85 | The string `"0"` passes the presence check and is rejected as not positive |
| Validation.NanAmountAccepted | controller.py:83-85 | A NaN amount is accepted as written and rejected by the finite-only check |
| Validation.FiniteValidationAcceptsPositiveNumbers | controller.py:82-89 | With the finite-only check, accepted if and only if all fields are present and the amount is a finite number greater than zero |
| Validation.FiniteValidationAgrees | controller.py:82-89 | The finite-only check gives the same verdict as the original whenever the amount is not NaN or infinite |
| Accounts.NormalizeUsername | controller.py:106 | A normalised name has no surrounding whitespace and no upper-case ASCII letter, and the lower-cased input is the name with only whitespace around it |
| Accounts.NormalizeIdempotent | controller.py:106 | Normalising twice is normalising once |
| Accounts.NormalizeIgnoresPaddingAndCase | controller.py:138 | Whitespace padding and ASCII case differences normalise to the same name |
| Accounts.Register | controller.py:103-123 | Status 201 if and only if both credentials are present and the normalised name is new, and then exactly that name is added; otherwise the store is unchanged |
| Accounts.Login | controller.py:135-152 | Status 200 if and only if both credentials are present, the normalised name is stored and the password matches |
| Accounts.RegisteredUserCanLogIn | controller.py:106-143 | After a successful registration, logging in with any padded or differently-cased spelling of the name succeeds |
| Accounts.DuplicateRegistrationRejected | controller.py:109-111 | Registering a name whose normalised form is stored is rejected and changes nothing |
| Accounts.VariantRegistrationRejected | controller.py:106-111 | A padded or differently-cased variant of a stored name is rejected as a duplicate |
| Accounts.BlankUsernameStoredEmpty | controller.py:103-106 | A whitespace-only username passes the presence check and is stored as the empty name |
| Expenses.Filter | controller.py:195-204 | Keeps exactly the rows that belong to the owner and pass the category and date filters, in their original order, as a sub-multiset |
| Expenses.FilterConcat | controller.py:195-204 | Filtering distributes over concatenation, so relative order is preserved |
| Expenses.NoFilterKeepsAll | controller.py:197-198 | With no category (or category 0) and no dates, every row of the owner is kept |
| Expenses.BoundsInclusive | controller.py:200-204 | An expense dated exactly on either bound is kept; a kept expense implies start is on or before end |
| Expenses.SortNewestFirst | controller.py:206 | The result is ordered newest first and is a permutation of the input |
| Expenses.ListExpenses | controller.py:195-206 | `min(limit, matches)` rows, all matching and drawn from the matches without repetition (a sub-multiset), newest first, and every matching row left out is no newer than every row returned |
| Dates.ReplaceDay | model.py:322 | `d.replace(day=k)` keeps year and month and sets the day, or raises `ValueError` exactly when `k` is not a day of that month |
| Dates.MonthKey | controller.py:324 | Seven characters: four digits spelling the year, `-`, and two digits spelling the month |
| Dates.MonthKeyIdentifiesMonth | controller.py:324 | Two dates have the same `%Y-%m` key if and only if they fall in the same month of the same year |
| Summary.TotalCoversEachAmount | controller.py:312 | With no negative amounts, the total is non-negative and at least every single amount |
| Summary.BreakdownKeyCount | controller.py:316-325 | A breakdown has at most one entry per expense |
| Summary.BreakdownSumsToTotal | controller.py:312-325 | The values of each breakdown add up to the total amount |
| Summary.BreakdownEntries | controller.py:316-325 | A breakdown has a key exactly for each group that occurs, and each value is the total of that group's expenses |
| Summary.BreakdownEntriesPositive | controller.py:316-319 | With positive amounts, no breakdown entry is zero or negative |
| Summary.Average | controller.py:332 | Dividing by `max(count, 1)`: the total itself for no expenses, otherwise a value whose product with the count is the total |
| Summary.Summarize | controller.py:312-332 | Count is the number of expenses; both breakdowns sum to the total and hold exactly the groups' totals; no expenses gives zeros; otherwise the average is total over count |
| Summary.GetSummary | controller.py:302-332 | Over the owner's expenses in the date range: the count is their number and the total their sum; both breakdowns sum to the total and have a key exactly for each category or month that occurs among them, holding that group's total; each category key names one of them; the average is total over count, or zero for none |
| Summary.TotalOfEqualAmounts | controller.py:312 | `n` expenses of one amount total `n` times that amount |
| Transactions.CompleteTransaction | model.py:31-35 | Afterwards date and creation time are present; supplied ones are kept, missing ones become today and now; no other field changes |
| Transactions.SuppliedTransactionUnchanged | model.py:31-35 | A transaction with both fields supplied is unchanged whatever the clock says |
| Transactions.CompleteTransactionIdempotent | model.py:31-35 | Filling the defaults again, even at a later time, changes nothing |
| Transactions.DefaultTransactionIsTodaysExpense | model.py:19-35 | A default-constructed transaction is a zero expense dated today |
| Transactions.CompleteBudget | model.py:46-48 | Afterwards the creation time is present; a supplied one is kept, a missing one becomes now; nothing else changes |
| Transactions.CompleteBudgetIdempotent | model.py:46-48 | Filling the budget default twice is filling it once |
| Queries.Append | model.py:274-276 | Appending literal text and one placeholder with its parameter keeps the query well formed and adds that parameter last |
| Queries.FilterQuery | model.py:271-288 | The filtered `SELECT` has one placeholder per parameter, all in the driver's style |
| Queries.TransactionsQuery | model.py:271-291 | The query is well formed and its last two parameters are the limit and the offset |
| Queries.TransactionsSqlIsPlaceholderFree | model.py:271-290 | The fixed text fragments of `get_transactions` contain no placeholder character |
| Queries.FilterQueryConditions | model.py:274-288 | One condition per present filter, in the order category, type, start date, end date, each followed by its placeholder, and the parameters are those conditions' values in order |
| Queries.TransactionsQueryConditions | model.py:271-291 | The whole query is the `SELECT` followed by the filter conditions, the limit and the offset, with parameter `i` filling placeholder `i` |
| Queries.DialectsAgree | model.py:275-290 | Both drivers get the same parameters, and the SQL differs only in the placeholder |
| Queries.TransactionsQueryParamCount | model.py:272-291 | Two parameters plus one per present filter |
| Inserts.InsertSql | model.py:234-238 | The `INSERT` text is in the driver's style and holds one placeholder per column |
| Inserts.InsertParams | model.py:243-250 | One value per column, each the value of the column in the same position of the column list |
| Inserts.AddTransactionQuery | model.py:234-250 | Six placeholders and six parameters, parameter `i` being the value of column `i` |
| Inserts.InsertParamsDetermineTransaction | model.py:243-250 | Equal parameter tuples come only from transactions that agree on every stored column |
| Inserts.CompletedTransactionBindsDate | model.py:31-33 | After `__post_init__` the date is bound as the supplied date or today, never as `NULL` |
| Figures.SpendingStartDate | model.py:322 | The default window starts on the 1st; otherwise the day `today.day - days + 1` of the current month, with `ValueError` exactly when that is not a day of the month |
| Figures.WindowStart | model.py:308-322 | The 1st of the month for the default window; otherwise the date `days - 1` days before today, so that the window holds exactly `days` days; `OverflowError` before year 1 |
| Figures.WindowStartsBeforeToday | model.py:309 | A window of a positive number of days starts on or before today, and exists exactly when it does not reach before year 1 |
| Figures.SpendingStartAgreesWhenDefined | model.py:322 | Whenever the source's start date is defined, it equals the window start |
| Figures.SpendingStartRejectsWindowAcrossMonths | model.py:322 | On 2024-03-05 a 7-day window raises as written, while its start is 2024-02-28 |
| Figures.SavingsRate | model.py:366 | With positive income the rate times income is 100 times the savings; otherwise 0 |
| Figures.MonthFigures | model.py:365-366 | Savings plus expenses equal income; the rate relates savings to income as above |
| Figures.MonthlyFigures | model.py:365-366 | The figures of the month if both sums are present, and the `TypeError` of `float(None)` if and only if one is `NULL` |
| Figures.MonthlyFiguresCoalesced | model.py:365-366 | With `NULL` read as 0, savings plus expenses equal income |
| Figures.CoalescedAgreesWhenDefined | model.py:365-366 | Where the source succeeds, the coalesced figures are the same |
| Figures.EmptyMonthRaises | model.py:343-366 | A month without transactions raises as written and gives all zeros when coalesced |
| Figures.SavingsRateSign | model.py:366 | With income, the rate has the sign of the savings, is 100 exactly when nothing was spent, and is at most 100 for non-negative expenses |
| Figures.BudgetFigures | model.py:456-457 | Remaining plus spent equals the budget and utilisation times the budget is 100 times spent; `ZeroDivisionError` exactly for a zero budget |
| Figures.RemainingMatchesUtilization | model.py:456-457 | For a positive budget the remainder is non-negative exactly when utilisation is at most 100 |
| Figures.BudgetsReport | model.py:455-459 | Succeeds if and only if no budget is zero, and then gives every row its figures in order |
| Figures.PositiveBudgetsNeverRaise | model.py:119 | Under the PostgreSQL schema's positive-amount constraint the budget report never raises |

## Left out

- Flask routing, the JSON reply bodies other than status and message, sessions and the `login_required` decorator are not modelled: they are framework behaviour.
- Password hashing is a parameter. `Login` takes whether `check_password_hash` matched.
- `Accounts.Register` does not model `generate_password_hash` (controller.py:116): it stores only the normalised name and assumes hashing succeeds, so the 500 reply when it raises (controller.py:125-127) is not modelled.
- Database execution is not modelled. The queries are modelled as the text and parameters sent. Query results (expense rows, the monthly row, budget rows) are inputs.
- `Accounts.Register` models the user table as a set of normalised names. The unique-constraint race between the lookup and the insert is not modelled.
- The clock is not modelled. `date.today()` and `datetime.now()` are parameters.
- `datetime.fromisoformat` on the `start_date`/`end_date` arguments is not modelled. The model takes the parsed dates, and a malformed string (which raises and becomes a 500 reply) is not modelled.
- The time of day is not modelled. Filter bounds compare calendar dates.
- Floating point is not modelled. Amounts and the figures are exact reals, so rounding in sums, averages and percentages is not modelled. `Summary.TotalOfEqualAmounts` holds for reals, not for IEEE doubles.
- The conversion of a very large integer amount to a float, which raises `OverflowError`, is not modelled.
- `Json.ToFloat` does not model underscores in numerals (`"1_000"`).
- `Json.ToFloat` raises `ValueError("could not convert string to float")` without the `: 'abc'` suffix in which Python repeats the offending string, because Python's `repr` of a string (its quoting and escaping rules) is not modelled.
- `Expenses.Expense` always carries a category name and a date. An expense without a category or a date makes the summary raise `AttributeError` (controller.py:318, 324), which becomes a 500 reply (controller.py:335-337). The model cannot express such a record, so it has no such failure.
- `Json.ToFloat` does not model the range of an IEEE double: values are exact reals, so `"1e-400"` gives a tiny positive number where Python gives 0.0 (and the amount is then rejected as not positive), and `"1e400"` gives a huge finite number where Python gives infinity.
- `Json.DigitToAscii` follows the decimal digits of Unicode 15.0. Python versions built on other Unicode versions accept a slightly different set of scripts.
- `Text.Lower` lower-cases ASCII letters only. Non-ASCII case mappings of `str.lower()` are not modelled.
- `Json.ToFloat` models a JSON list or object amount only by its size. A JSON body that is not an object is not modelled.
- `Dates.MonthKey` assumes years of four digits. `%Y` for years below 1000 differs between platforms.
- `Expenses.ListExpenses` takes a non-negative `limit`. A negative `limit` argument is not modelled.
- `Expenses.SortNewestFirst` fixes one order among expenses of the same date. The database may return ties in any order.
- The SQL text of `get_spending_by_category`, `get_monthly_summary`, `get_budgets`, `add_budget`, `delete_transaction` and the schema creation is not modelled. Their parameters are the start date, the year and month, or nothing. Only the Python arithmetic on their results is modelled.
- `Queries.TransactionsQuery` is stated over any placeholder-free set of text fragments. `Queries.TransactionsSql` holds the source's fragments, and `Queries.TransactionsSqlIsPlaceholderFree` shows they qualify.
- `Dates.ReplaceDay` uses the long-standing `ValueError` message "day is out of range for month". Newer Python versions word it differently and name the offending day.
- Logging, security headers, CORS, rate limits and `setup_logging` are not modelled: they compute nothing the rest depends on.

## Findings

| source | as written | input that shows it | evidently intended | confidence | as-written member | corrected member |
|---|---|---|---|---|---|---|
| model.py:322 | For any window other than 30 days, the start date is `today.replace(day=today.day - days + 1)`, which stays inside the current month | `get_spending_by_category(7)` on 2024-03-05 asks for day -1 of March and raises `ValueError` | the last `days` days, starting `days - 1` days before today (2024-02-28), as the docstring says | not executed | Figures.SpendingStartDate, Figures.SpendingStartRejectsWindowAcrossMonths | Figures.WindowStart |
| model.py:365 | `float(result.get('total_income', 0))`; the key is present but holds `NULL` when the month has no transactions, because `SUM` over no rows is `NULL` | `get_monthly_summary(y, m)` for a month with no transactions raises `TypeError` | zeros for an empty month (the default 0 shows this intent) | not executed | Figures.MonthlyFigures, Figures.EmptyMonthRaises | Figures.MonthlyFiguresCoalesced |
| controller.py:83-85 | `amount <= 0` is the only numeric check, and it is false for NaN | an expense with amount `"nan"` is accepted | only finite positive amounts accepted | not executed | Validation.ValidateExpenseData, Validation.NanAmountAccepted | Validation.ValidateExpenseDataFinite, Validation.FiniteValidationAcceptsPositiveNumbers |
