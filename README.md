# MoneyMate ledger model

MoneyMate is a Streamlit personal-finance page with a chat assistant. Its
logic is a per-session ledger:

- a transactions table: date, kind "Pemasukan" (income) or "Pengeluaran"
  (expense), category, whole-Rupiah amount, description;
- a goal registry mapping a goal name to `{target, saved}`.

Everything on the dashboard is computed from these two:

- income total, expense total and balance;
- per-category expense bars;
- one progress bar per goal, all measured against the pooled savings;
- the summary sentence put into the assistant's prompt;
- the history view, newest date first.

This project models that ledger in Dafny.

- `LedgerStore.Ledger` is a class. Its fields are the table (`seq<Transaction>`)
  and the registry (`map<string, Goal>`). It has three methods:
  `AddTransaction` is the unguarded `add_transaction` helper, and
  `SubmitTransaction` and `SetGoal` are the transaction form and the goal
  form.
- The derived values are recursive functions over the table. Lemmas relate them
  to each other and to independent reference definitions.

The modules are:

- `LedgerTypes`: rows, goals, the category lists per kind, and the invariant
  that a stored row has a positive amount and a category from its kind's list.
- `Aggregates`: row filters, sums, the two totals, the balance and the savings
  pool.
- `ExpenseGroups`: the group-by behind the expense allocation chart.
- `GoalProgress`: the progress percentage and the clamped bar fill.
- `AmountFormat`: the `,.0f` rendering of an integer, with thousands separated
  by commas, and a reader for it.
- `Summary`: the prompt's summary sentence and a reader proving that the
  sentence carries exactly the three figures.
- `History`: the display order of the history view.
- `LedgerStore`: the session state, the row-append helper, the two forms, and a
  few worked scenarios.

Inputs the program takes from its environment are parameters:

- the current day (`today`);
- what the user typed into the forms.

## Model

| member | source | states |
|---|---|---|
| LedgerTypes.CategoriesFor | app.py:213-216 | each kind offers four categories ending in "Lainnya"; the savings category "Tabungan (20%)" is offered for expenses and never for income |
| LedgerTypes.AllWellFormedAppend | app.py:193-195 | appending a row keeps every stored row valid (positive amount, category of its kind) exactly when the new row is valid |
| LedgerStore.Ledger.constructor | app.py:172-175 | a new session has an empty table and an empty registry, and satisfies the ledger invariant |
| LedgerStore.Ledger.AddTransaction | app.py:193-195 | the table becomes the old table plus one row stamped with today's date at the end; the registry is unchanged; the invariant holds afterwards iff it held before and the row is valid |
| LedgerStore.Ledger.SubmitTransaction | app.py:211-219 | with a category from the kind's list, a row is added iff amount > 0, as exactly one row at the end; otherwise the table is unchanged; goals are untouched and the invariant is kept |
| LedgerStore.Ledger.SetGoal | app.py:222-227 | accepted iff the name is non-empty and target > 0; then that name maps to {target, saved: 0}, overwriting any old entry; other goals, the table and the invariant are unchanged; a rejected submit changes nothing |
| Aggregates.Filter | app.py:240-241 | a row mask keeps at most the table's rows; what it keeps is stated by FilterMembers and FilterAppend |
| Aggregates.FilterMembers | app.py:240-241 | a row is kept by a mask (the kind test of app.py:240-241, the category-only test of app.py:274) iff it is in the table and passes the test |
| Aggregates.SumAmounts | app.py:240-241 | a column sum of positive amounts is non-negative, and 0 exactly for an empty selection |
| Aggregates.SumAmountsAppend | app.py:240-241 | the sum over two concatenated selections is the sum of their sums |
| Aggregates.FilterAppend | app.py:240-241 | masking a concatenation masks each part, keeping table order |
| Aggregates.TotalByKind | app.py:240-241 | with positive amounts a kind's total is non-negative, and 0 iff no row has that kind; its value is pinned by TotalByKindAppend and IncomeAndExpensePartition |
| Aggregates.Balance | app.py:242 | income minus expense equals the row-by-row sum of signed amounts (income positive, expense negative), so it is 0 for an empty table and may be negative |
| Aggregates.SavingsPool | app.py:274 | with positive amounts the pool is non-negative, and 0 iff no row is in "Tabungan (20%)"; its growth is stated by SavingsPoolAppend |
| Aggregates.TotalByKindAppend | app.py:240-241 | a new row raises the total of its own kind by its amount and leaves the other total unchanged |
| Aggregates.TotalByKindPrepend | app.py:240-241 | a row in front of the table adds its amount to its own kind's total only |
| Aggregates.BalanceAppend | app.py:242 | a new row changes the balance by +amount for income and -amount for expense |
| Aggregates.KindTotalsAreRunningBalance | app.py:240-242 | income total minus expense total equals the front-first sum of signed amounts |
| Aggregates.IncomeAndExpensePartition | app.py:240-241 | income total plus expense total is the sum of all amounts, since every row is one kind or the other |
| Aggregates.FilteredSum | app.py:240-241 | a masked sum of positive amounts is non-negative, and 0 iff no row of the table passes the mask |
| Aggregates.SavingsPoolAppend | app.py:274 | a new row grows the savings pool by its amount iff it is in "Tabungan (20%)" |
| Aggregates.SavingsPoolIsSavingsExpense | app.py:274 | for valid rows the category-only savings filter selects exactly the expense rows in "Tabungan (20%)" |
| ExpenseGroups.ExpenseByCategory | app.py:283-285 | the group-by's keys are exactly the categories occurring among expense rows; its values are stated by ExpenseByCategoryValues and ExpenseByCategoryTotal |
| ExpenseGroups.ExpenseByCategoryKeys | app.py:283-285 | the group keys are exactly the categories occurring among expense rows, and there are no groups iff there are no expense rows |
| ExpenseGroups.ExpenseInCategoryAppend | app.py:283-285 | a row changes one category's expense total by its amount iff it is an expense in that category |
| ExpenseGroups.ExpenseByCategoryValuesStep | app.py:283-285 | appending a row keeps each group's value equal to the filtered expense sum of its category |
| ExpenseGroups.GroupStepValue | app.py:285 | one row folded into the group map changes a category's value by the row's amount iff the row is an expense in that category |
| ExpenseGroups.GroupStepTotal | app.py:285 | one row folded into the group map raises the sum of its values by the row's amount iff the row is an expense |
| ExpenseGroups.ExpenseByCategoryValues | app.py:283-285 | each category's group value equals the sum of the expense rows in that category (0 when absent) |
| ExpenseGroups.ExpenseByCategoryTotalStep | app.py:283-285 | appending a row keeps the sum of the group values equal to the expense total |
| ExpenseGroups.ExpenseByCategoryTotal | app.py:283-285 | the group values add up to the expense total |
| ExpenseGroups.ExpenseByCategoryPositive | app.py:283-285 | for valid rows every group value is positive |
| ExpenseGroups.SavingsPoolIsSavingsBar | app.py:283-285 | for valid rows the pooled savings equal the "Tabungan (20%)" expense bar |
| GoalProgress.Progress | app.py:276 | for a positive target, progress times target equals savings times 100; otherwise progress is 0 |
| GoalProgress.Fill | app.py:277 | the fill is min(progress / 100, 1): never above 1, non-negative for non-negative progress, 1 exactly at progress >= 100 |
| GoalProgress.GoalPercent | app.py:274-276 | a goal's progress, measured against the pooled savings, reaches 100 iff the pool reaches a positive target, is 0 for a target that is not positive, and is never negative while amounts are positive |
| GoalProgress.ProgressBoard | app.py:274-277 | one progress value per registered goal, and goals with equal targets show equal progress because the savings are pooled |
| GoalProgress.ProgressSign | app.py:276 | for a positive target, progress is >= 0 iff savings are, >= 100 iff savings reach the target, and is strictly monotone in the savings |
| GoalProgress.FillInUnitRange | app.py:274-277 | for valid rows every goal's bar fill lies in [0, 1] |
| GoalProgress.GoalReached | app.py:274-277 | for a positive target a goal's bar is full iff the pooled savings reach the target |
| GoalProgress.ProgressNeverDecreases | app.py:274-277 | adding a row with a non-negative amount never lowers any goal's progress or fill; a positive savings row strictly raises the progress of every goal with a positive target |
| AmountFormat.FormatAmount | app.py:184 | the printed amount is non-empty and starts with "-" iff the amount is negative |
| AmountFormat.StripCommasGrouped | app.py:184 | removing the thousands separators from the grouped form leaves the plain decimal digits |
| AmountFormat.GroupedSeparated | app.py:184 | the grouped form consists of digits and commas, each comma followed by a digit |
| AmountFormat.ReadFormatted | app.py:184 | reading a printed amount followed by a non-numeric text gives back the amount and exactly that text |
| Summary.FiguresSentence | app.py:184 | a sentence reporting figures is never the no-data sentence |
| Summary.SummaryText | app.py:179-184 | the summary is the fixed "belum ada" sentence iff the table is empty |
| Summary.ReadFiguresSentence | app.py:184 | the figures sentence reads back as its income, expense and balance, in that order |
| Summary.SummaryRoundTrip | app.py:179-184 | the summary of any table reads back as "no data" when it is empty, and otherwise as its income total, expense total and balance |
| History.InsertByDate | app.py:301 | inserting a row into a newest-first list keeps it newest-first and adds exactly that row |
| History.SortNewestFirst | app.py:299-301 | the history view lists exactly the table's rows (the same multiset) with dates non-increasing |

## Left out

- The page layout, CSS, tabs, metrics, toasts and reruns are UI rendering with no ledger logic. The toast at app.py:196 is one of them.
- The assistant call is a foreign network call and is not modelled: the Gemini model configuration, `generate_content`, the "API unavailable" reply, and the error-to-message conversion. Only the summary sentence is modelled.
- The prompt that wraps the summary sentence (app.py:185-186) is plain string interpolation around the modelled sentence.
- The chat history list and its display are transcript state with no logic.
- The Plotly bar chart and the CSV download are wrappers around libraries that are not part of this model. The chart's input, the group-by, is modelled.
- `datetime.date.today()` is the `today` parameter. A date is a day number, because every row is stamped at midnight of its day.
- The unused `fpdf`, `base64` and `BytesIO` imports have no behaviour.
- FormatAmount: the amounts are integers, so the `,.0f` format is modelled as exact digit grouping. The source formats through a float, which rounds integers above 2^53. That rounding is not modelled.
- The `.1f` percentage label on each progress bar is presentation only. The percentage itself is modelled exactly as a real number.
- GoalProgress.Progress: uses exact real arithmetic where the source divides in floating point.
- SubmitTransaction: takes the category as a precondition, since the form's select box only offers the chosen kind's list. Free text cannot reach it.
- History.SortNewestFirst: orders by date and says nothing about the order of rows with the same date. The source sorts with pandas `sort_values`, whose default algorithm is quicksort and is not stable. Rows with the same date may appear in any order; the source does not fix their order.
- History.SortNewestFirst: the amount column of the displayed copy is reformatted with the same `,.0f` format as the summary (FormatAmount). The model sorts the rows themselves.
- LedgerStore.Ledger.SetGoal: the registry is a `map`, which has no order. The source's dict keeps insertion order, and overwriting a name keeps its place. That order is the order of the progress bars (app.py:275-277). The model does not capture it.
- GoalProgress.ProgressBoard: gives each goal's progress by name, without the order in which the bars are drawn.
