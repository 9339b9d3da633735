/** Sums over the transactions table: the income and expense totals, the
    balance and the savings pool. Each is a row filter followed by a sum of
    the "Jumlah" column, as the dashboard computes them; an empty selection
    sums to 0. */
module Aggregates {
  import opened LedgerTypes

  /** The rows satisfying p, in table order: a boolean row mask applied to
      the table. */
  function Filter(ts: seq<Transaction>, p: Transaction -> bool): (r: seq<Transaction>)
    ensures |r| <= |ts|
    decreases |ts|
  {
    if ts == [] then []
    else
      var init := Filter(ts[..|ts| - 1], p);
      if p(ts[|ts| - 1]) then init + [ts[|ts| - 1]] else init
  }

  /** The mask of the "Jenis" column against one kind. */
  function OfKind(kind: Kind): Transaction -> bool {
    (t: Transaction) => t.kind == kind
  }

  /** The mask of the "Kategori" column against one category. */
  function InCategory(category: string): Transaction -> bool {
    (t: Transaction) => t.category == category
  }

  /** The rows of kind `kind`, in table order. */
  function RowsOfKind(ts: seq<Transaction>, kind: Kind): seq<Transaction> {
    Filter(ts, OfKind(kind))
  }

  /** The rows whose category is `category`, in table order, whatever their kind. */
  function RowsInCategory(ts: seq<Transaction>, category: string): seq<Transaction> {
    Filter(ts, InCategory(category))
  }

  predicate PositiveAmounts(ts: seq<Transaction>) {
    forall i :: 0 <= i < |ts| ==> ts[i].amount > 0
  }

  /** The sum of the "Jumlah" column. A sum of positive amounts is positive
      exactly when there is a row to sum. */
  function SumAmounts(ts: seq<Transaction>): (r: int)
    ensures PositiveAmounts(ts) ==> r >= 0 && (r == 0 <==> ts == [])
    decreases |ts|
  {
    if ts == [] then 0
    else SumAmounts(ts[..|ts| - 1]) + ts[|ts| - 1].amount
  }

  /** Total income (kind = Income) or total expense (kind = Expense). With
      positive amounts it is non-negative, and 0 exactly when no row has
      that kind. */
  function TotalByKind(ts: seq<Transaction>, kind: Kind): (r: int)
    ensures PositiveAmounts(ts) ==> r >= 0
    ensures PositiveAmounts(ts) ==> (r == 0 <==> forall t :: t in ts ==> t.kind != kind)
  {
    FilteredSum(ts, OfKind(kind));
    SumAmounts(RowsOfKind(ts, kind))
  }

  /** Income minus expense: the sum of the rows' signed amounts, so it is 0
      for an empty table and, not being clamped, may be negative. */
  function Balance(ts: seq<Transaction>): (r: int)
    ensures r == RunningBalance(ts)
  {
    KindTotalsAreRunningBalance(ts);
    TotalByKind(ts, Income) - TotalByKind(ts, Expense)
  }

  /** The pooled savings every goal is measured against: the sum over all rows
      in the savings category. The filter is on the category alone. With
      positive amounts it is non-negative, and 0 exactly when no row is in
      the savings category. */
  function SavingsPool(ts: seq<Transaction>): (r: int)
    ensures PositiveAmounts(ts) ==> r >= 0
    ensures PositiveAmounts(ts) ==> (r == 0 <==> forall t :: t in ts ==> t.category != SavingsCategory)
  {
    FilteredSum(ts, InCategory(SavingsCategory));
    SumAmounts(RowsInCategory(ts, SavingsCategory))
  }

  /** A row's effect on the balance, as an independent reference for Balance. */
  function SignedAmount(t: Transaction): int {
    if t.kind == Income then t.amount else -t.amount
  }

  /** The balance accumulated row by row from the first row. */
  function RunningBalance(ts: seq<Transaction>): int {
    if ts == [] then 0 else SignedAmount(ts[0]) + RunningBalance(ts[1..])
  }

  lemma {:induction false} SumAmountsAppend(a: seq<Transaction>, b: seq<Transaction>)
    ensures SumAmounts(a + b) == SumAmounts(a) + SumAmounts(b)
    decreases |b|
  {
    if b != [] {
      var b' := b[..|b| - 1];
      assert (a + b)[..|a + b| - 1] == a + b';
      SumAmountsAppend(a, b');
    } else {
      assert a + b == a;
    }
  }

  /** Masking a concatenation masks each part, keeping table order. */
  lemma {:induction false} FilterAppend(a: seq<Transaction>, b: seq<Transaction>, p: Transaction -> bool)
    ensures Filter(a + b, p) == Filter(a, p) + Filter(b, p)
    decreases |b|
  {
    if b == [] {
      assert a + b == a;
    } else {
      var b' := b[..|b| - 1];
      assert (a + b)[..|a + b| - 1] == a + b';
      FilterAppend(a, b', p);
    }
  }

  /** The mask keeps exactly the rows of the table that satisfy it. */
  lemma {:induction false} FilterMembers(ts: seq<Transaction>, p: Transaction -> bool)
    ensures forall t :: t in Filter(ts, p) <==> t in ts && p(t)
    decreases |ts|
  {
    if ts != [] {
      var init := ts[..|ts| - 1];
      assert ts == init + [ts[|ts| - 1]];
      FilterMembers(init, p);
    }
  }

  /** Adding a row changes the total of its own kind by its amount and leaves
      the other kind's total as it was. */
  lemma TotalByKindAppend(ts: seq<Transaction>, t: Transaction, kind: Kind)
    ensures TotalByKind(ts + [t], kind) == TotalByKind(ts, kind) + (if t.kind == kind then t.amount else 0)
  {
    FilterAppend(ts, [t], OfKind(kind));
    assert [t][..0] == [];
    SumAmountsAppend(RowsOfKind(ts, kind), RowsOfKind([t], kind));
  }

  /** Adding a row changes the balance by its signed amount. */
  lemma BalanceAppend(ts: seq<Transaction>, t: Transaction)
    ensures Balance(ts + [t]) == Balance(ts) + SignedAmount(t)
  {
    TotalByKindAppend(ts, t, Income);
    TotalByKindAppend(ts, t, Expense);
  }

  /** Adding a row grows the savings pool by its amount when it is in the
      savings category, and leaves it unchanged otherwise. */
  lemma SavingsPoolAppend(ts: seq<Transaction>, t: Transaction)
    ensures SavingsPool(ts + [t]) == SavingsPool(ts) + (if t.category == SavingsCategory then t.amount else 0)
  {
    FilterAppend(ts, [t], InCategory(SavingsCategory));
    assert [t][..0] == [];
    SumAmountsAppend(RowsInCategory(ts, SavingsCategory), RowsInCategory([t], SavingsCategory));
  }

  /** Putting a row in front of the table changes the total of its kind by its amount. */
  lemma TotalByKindPrepend(t: Transaction, ts: seq<Transaction>, kind: Kind)
    ensures TotalByKind([t] + ts, kind) == (if t.kind == kind then t.amount else 0) + TotalByKind(ts, kind)
  {
    FilterAppend([t], ts, OfKind(kind));
    assert [t][..0] == [];
    SumAmountsAppend(RowsOfKind([t], kind), RowsOfKind(ts, kind));
  }

  /** Income minus expense is the sum of signed amounts, income positive
      and expense negative. */
  lemma {:induction false} KindTotalsAreRunningBalance(ts: seq<Transaction>)
    ensures TotalByKind(ts, Income) - TotalByKind(ts, Expense) == RunningBalance(ts)
    decreases |ts|
  {
    if ts != [] {
      KindTotalsAreRunningBalance(ts[1..]);
      assert ts == [ts[0]] + ts[1..];
      TotalByKindPrepend(ts[0], ts[1..], Income);
      TotalByKindPrepend(ts[0], ts[1..], Expense);
    }
  }

  /** Every row is income or expense, so the two totals add up to the sum of
      all amounts. */
  lemma {:induction false} IncomeAndExpensePartition(ts: seq<Transaction>)
    ensures TotalByKind(ts, Income) + TotalByKind(ts, Expense) == SumAmounts(ts)
    decreases |ts|
  {
    if ts != [] {
      var init := ts[..|ts| - 1];
      assert ts == init + [ts[|ts| - 1]];
      IncomeAndExpensePartition(init);
      TotalByKindAppend(init, ts[|ts| - 1], Income);
      TotalByKindAppend(init, ts[|ts| - 1], Expense);
    }
  }

  /** A masked sum of positive amounts is non-negative, and 0 exactly when
      no row passes the mask. */
  lemma FilteredSum(ts: seq<Transaction>, p: Transaction -> bool)
    ensures PositiveAmounts(ts) ==> SumAmounts(Filter(ts, p)) >= 0
    ensures PositiveAmounts(ts) ==> (SumAmounts(Filter(ts, p)) == 0 <==> forall t :: t in ts ==> !p(t))
  {
    var r := Filter(ts, p);
    FilterMembers(ts, p);
    if PositiveAmounts(ts) {
      forall i | 0 <= i < |r| ensures r[i].amount > 0 {
        assert r[i] in r;
      }
      if r != [] {
        assert r[0] in r;
      }
    }
  }

  /** Under the category-per-kind invariant the category-only savings filter
      selects exactly the savings expenses. */
  lemma {:induction false} SavingsPoolIsSavingsExpense(ts: seq<Transaction>)
    requires AllWellFormed(ts)
    ensures RowsInCategory(ts, SavingsCategory) == RowsInCategory(RowsOfKind(ts, Expense), SavingsCategory)
    decreases |ts|
  {
    if ts != [] {
      var init, t := ts[..|ts| - 1], ts[|ts| - 1];
      assert ts == init + [t];
      SavingsPoolIsSavingsExpense(init);
      assert WellFormed(t);
      FilterAppend(init, [t], InCategory(SavingsCategory));
      FilterAppend(init, [t], OfKind(Expense));
      FilterAppend(RowsOfKind(init, Expense), RowsOfKind([t], Expense), InCategory(SavingsCategory));
      assert [t][..0] == [];
    }
  }
}
