/** The expense allocation chart's data: expense rows grouped by category with
    their amounts summed (a pandas group-by over the "Kategori" column). */
module ExpenseGroups {
  import opened LedgerTypes
  import opened Aggregates

  /** The summed amount of a category, 0 for a category that is not a key. */
  function GroupValue(m: map<string, int>, category: string): int {
    if category in m then m[category] else 0
  }

  /** Category -> summed amount over the expense rows, built row by row.
      The keys are exactly the categories of the expense rows. */
  function ExpenseByCategory(ts: seq<Transaction>): (m: map<string, int>)
    ensures m.Keys == ExpenseCategoriesIn(ts)
    decreases |ts|
  {
    if ts == [] then map[]
    else
      var init, t := ts[..|ts| - 1], ts[|ts| - 1];
      var m := ExpenseByCategory(init);
      assert ts == init + [t];
      assert t.kind == Expense ==> ExpenseCategoriesIn(ts) == ExpenseCategoriesIn(init) + {t.category};
      assert t.kind != Expense ==> ExpenseCategoriesIn(ts) == ExpenseCategoriesIn(init);
      AddToGroups(m, t)
  }

  /** One step of the group-by: an expense row adds its amount to its
      category's group, creating the group if needed; any other row leaves
      the groups as they are. */
  function AddToGroups(m: map<string, int>, t: Transaction): map<string, int> {
    if t.kind != Expense then m
    else m[t.category := GroupValue(m, t.category) + t.amount]
  }

  /** The categories that occur among the expense rows. */
  function ExpenseCategoriesIn(ts: seq<Transaction>): set<string> {
    set t | t in ts && t.kind == Expense :: t.category
  }

  /** The expense total of one category, by filtering twice and summing. */
  function ExpenseInCategory(ts: seq<Transaction>, category: string): int {
    SumAmounts(RowsInCategory(RowsOfKind(ts, Expense), category))
  }

  /** The sum of all values of a map, taking the keys in any order. */
  ghost function MapTotal(m: map<string, int>): int
    decreases |m|
  {
    if m == map[] then 0
    else
      var c :| c in m;
      assert |m - {c}| < |m| by { assert (m - {c}).Keys == m.Keys - {c}; }
      m[c] + MapTotal(m - {c})
  }

  /** Any key can be taken out first: the total does not depend on the order. */
  lemma {:induction false} MapTotalRemove(m: map<string, int>, c: string)
    requires c in m
    ensures MapTotal(m) == m[c] + MapTotal(m - {c})
    decreases |m|
  {
    var d :| d in m && MapTotal(m) == m[d] + MapTotal(m - {d});
    if d != c {
      assert (m - {d}).Keys == m.Keys - {d};
      assert (m - {c}).Keys == m.Keys - {c};
      MapTotalRemove(m - {d}, c);
      MapTotalRemove(m - {c}, d);
      assert m - {d} - {c} == m - {c} - {d};
    }
  }

  /** Setting a key to v changes the total by v minus the key's old value. */
  lemma MapTotalUpdate(m: map<string, int>, c: string, v: int)
    ensures MapTotal(m[c := v]) == MapTotal(m) - GroupValue(m, c) + v
  {
    var m' := m[c := v];
    MapTotalRemove(m', c);
    assert m' - {c} == m - {c};
    if c in m {
      MapTotalRemove(m, c);
    } else {
      assert m - {c} == m;
    }
  }

  lemma ExpenseByCategoryAppend(ts: seq<Transaction>, t: Transaction)
    ensures ExpenseByCategory(ts + [t]) == AddToGroups(ExpenseByCategory(ts), t)
  {
    assert (ts + [t])[..|ts|] == ts;
  }

  /** The keys are exactly the categories of the expense rows; so the map is
      empty exactly when there are no expense rows. */
  lemma {:induction false} ExpenseByCategoryKeys(ts: seq<Transaction>)
    ensures ExpenseByCategory(ts).Keys == ExpenseCategoriesIn(ts)
    ensures ExpenseByCategory(ts) == map[] <==> RowsOfKind(ts, Expense) == []
    decreases |ts|
  {
    if ts != [] {
      var init, t := ts[..|ts| - 1], ts[|ts| - 1];
      assert ts == init + [t];
      ExpenseByCategoryKeys(init);
      ExpenseByCategoryAppend(init, t);
      if t.kind == Expense {
        assert ExpenseCategoriesIn(ts) == ExpenseCategoriesIn(init) + {t.category};
        FilterMembers(ts, OfKind(Expense));
        assert t in RowsOfKind(ts, Expense);
      } else {
        assert ExpenseCategoriesIn(ts) == ExpenseCategoriesIn(init);
        FilterAppend(init, [t], OfKind(Expense));
        assert [t][..0] == [];
      }
    }
  }

  /** A new row adds its amount to its own category's expense total only when
      it is an expense. */
  lemma ExpenseInCategoryAppend(ts: seq<Transaction>, t: Transaction, category: string)
    ensures ExpenseInCategory(ts + [t], category) ==
      ExpenseInCategory(ts, category) + (if t.kind == Expense && t.category == category then t.amount else 0)
  {
    FilterAppend(ts, [t], OfKind(Expense));
    assert [t][..0] == [];
    var e := RowsOfKind(ts, Expense);
    if t.kind == Expense {
      assert RowsOfKind([t], Expense) == [t];
      FilterAppend(e, [t], InCategory(category));
      SumAmountsAppend(RowsInCategory(e, category), RowsInCategory([t], category));
    } else {
      assert RowsOfKind([t], Expense) == [];
      assert e + [] == e;
    }
  }

  /** Adding a row keeps each category's value equal to its expense total. */
  lemma ExpenseByCategoryValuesStep(ts: seq<Transaction>, t: Transaction, category: string)
    requires GroupValue(ExpenseByCategory(ts), category) == ExpenseInCategory(ts, category)
    ensures GroupValue(ExpenseByCategory(ts + [t]), category) == ExpenseInCategory(ts + [t], category)
  {
    ExpenseByCategoryAppend(ts, t);
    ExpenseInCategoryAppend(ts, t, category);
    GroupStepValue(ExpenseByCategory(ts), t, category);
  }

  /** Folding one row into a group map changes one category's value by the
      row's amount exactly when the row is an expense in that category. */
  lemma GroupStepValue(m: map<string, int>, t: Transaction, category: string)
    ensures GroupValue(AddToGroups(m, t), category) ==
      GroupValue(m, category) + (if t.kind == Expense && t.category == category then t.amount else 0)
  {
    if t.kind == Expense && t.category != category {
      assert GroupValue(AddToGroups(m, t), category) == GroupValue(m, category);
    }
  }

  /** Each category's value is the sum of that category's expense amounts. */
  lemma {:induction false} ExpenseByCategoryValues(ts: seq<Transaction>, category: string)
    ensures GroupValue(ExpenseByCategory(ts), category) == ExpenseInCategory(ts, category)
    decreases |ts|
  {
    if ts != [] {
      var init := ts[..|ts| - 1];
      assert ts == init + [ts[|ts| - 1]];
      ExpenseByCategoryValues(init, category);
      ExpenseByCategoryValuesStep(init, ts[|ts| - 1], category);
    }
  }

  /** Adding a row keeps the bars' total equal to the expense total. */
  lemma ExpenseByCategoryTotalStep(ts: seq<Transaction>, t: Transaction)
    requires MapTotal(ExpenseByCategory(ts)) == TotalByKind(ts, Expense)
    ensures MapTotal(ExpenseByCategory(ts + [t])) == TotalByKind(ts + [t], Expense)
  {
    var m, m' := ExpenseByCategory(ts), ExpenseByCategory(ts + [t]);
    ExpenseByCategoryAppend(ts, t);
    TotalByKindAppend(ts, t, Expense);
    GroupStepTotal(m, t);
  }

  /** Folding one row into a group map moves its total by the row's expense amount. */
  lemma GroupStepTotal(m: map<string, int>, t: Transaction)
    ensures MapTotal(AddToGroups(m, t)) == MapTotal(m) + (if t.kind == Expense then t.amount else 0)
  {
    if t.kind == Expense {
      MapTotalUpdate(m, t.category, GroupValue(m, t.category) + t.amount);
    }
  }

  /** The chart's bars add up to the expense total. */
  lemma {:induction false} ExpenseByCategoryTotal(ts: seq<Transaction>)
    ensures MapTotal(ExpenseByCategory(ts)) == TotalByKind(ts, Expense)
    decreases |ts|
  {
    if ts != [] {
      var init := ts[..|ts| - 1];
      assert ts == init + [ts[|ts| - 1]];
      ExpenseByCategoryTotal(init);
      ExpenseByCategoryTotalStep(init, ts[|ts| - 1]);
    }
  }

  /** With positive stored amounts every bar is positive. */
  lemma ExpenseByCategoryPositive(ts: seq<Transaction>)
    requires AllWellFormed(ts)
    ensures forall c :: c in ExpenseByCategory(ts) ==> ExpenseByCategory(ts)[c] > 0
  {
    var m := ExpenseByCategory(ts);
    ExpenseByCategoryKeys(ts);
    forall c | c in m ensures m[c] > 0 {
      ExpenseByCategoryValues(ts, c);
      var t :| t in ts && t.kind == Expense && t.category == c;
      var e := RowsOfKind(ts, Expense);
      var r := RowsInCategory(e, c);
      FilterMembers(ts, OfKind(Expense));
      FilterMembers(e, InCategory(c));
      assert t in r;
      forall i | 0 <= i < |r| ensures r[i].amount > 0 {
        assert r[i] in r;
      }
    }
  }

  /** The savings pool every goal reads equals the savings bar of the chart. */
  lemma SavingsPoolIsSavingsBar(ts: seq<Transaction>)
    requires AllWellFormed(ts)
    ensures SavingsPool(ts) == GroupValue(ExpenseByCategory(ts), SavingsCategory)
  {
    SavingsPoolIsSavingsExpense(ts);
    ExpenseByCategoryValues(ts, SavingsCategory);
  }
}
