/** The session state: the transactions table and the goal registry, and the
    two forms that change them. */
module LedgerStore {
  import opened LedgerTypes
  import opened Aggregates
  import opened ExpenseGroups
  import opened GoalProgress
  import opened Summary

  /** A registry entry the goal form can create. */
  predicate ValidGoal(name: string, g: Goal) {
    name != "" && g.target > 0 && g.saved == 0
  }

  class Ledger {
    /** The rows in insertion order; rows are only ever appended. */
    var transactions: seq<Transaction>
    /** Goal name -> {target, saved}. */
    var goals: map<string, Goal>

    /** Every row came through the transaction form and every goal through
        the goal form. */
    ghost predicate Valid()
      reads this
    {
      && AllWellFormed(transactions)
      && forall name :: name in goals ==> ValidGoal(name, goals[name])
    }

    /** A new session: an empty table and no goals. */
    constructor ()
      ensures Valid()
      ensures transactions == [] && goals == map[]
    {
      transactions := [];
      goals := map[];
    }

    /** Appends one row stamped with `today`; no check of its own. The state
        stays valid exactly when the row is one the form could add. */
    method AddTransaction(today: Date, kind: Kind, category: string, amount: int, description: string)
      modifies this
      ensures transactions == old(transactions) + [Transaction(today, kind, category, amount, description)]
      ensures goals == old(goals)
      ensures Valid() <==> old(Valid()) && WellFormed(Transaction(today, kind, category, amount, description))
    {
      AllWellFormedAppend(transactions, Transaction(today, kind, category, amount, description));
      transactions := transactions + [Transaction(today, kind, category, amount, description)];
    }

    /** The transaction form's submit: the category comes from the list the
        form shows for the chosen kind, and the row is added only when the
        amount is positive. A rejected submission changes nothing. */
    method SubmitTransaction(today: Date, kind: Kind, category: string, amount: int, description: string)
      returns (added: bool)
      requires Valid()
      requires category in CategoriesFor(kind)
      modifies this
      ensures Valid()
      ensures added <==> amount > 0
      ensures transactions == if added
        then old(transactions) + [Transaction(today, kind, category, amount, description)]
        else old(transactions)
      ensures goals == old(goals)
    {
      added := amount > 0;
      if added {
        AddTransaction(today, kind, category, amount, description);
      }
    }

    /** The goal form's submit: a non-empty name and a positive target insert
        or overwrite that name's entry with saved = 0; anything else changes
        nothing. */
    method SetGoal(name: string, target: int) returns (accepted: bool)
      requires Valid()
      modifies this
      ensures Valid()
      ensures accepted <==> name != "" && target > 0
      ensures goals == if accepted then old(goals)[name := Goal(target, 0)] else old(goals)
      ensures transactions == old(transactions)
    {
      accepted := name != "" && target > 0;
      if accepted {
        goals := goals[name := Goal(target, 0)];
      }
    }
  }

  /** A fresh session: balance 0, no expense bars, the fixed summary sentence. */
  method EmptySessionScenario() {
    var ledger := new Ledger();
    assert Balance(ledger.transactions) == 0;
    assert ExpenseByCategory(ledger.transactions) == map[];
    assert SummaryText(ledger.transactions) == NoDataSentence;
  }

  /** Income 5,000,000 ("Gaji") and a savings expense of 1,000,000 leave a
      balance of 4,000,000. */
  method SalaryAndSavingsScenario(today: Date) {
    var ledger := new Ledger();
    var salary := Transaction(today, Income, "Gaji", 5000000, "");
    var saving := Transaction(today, Expense, SavingsCategory, 1000000, "");
    assert IncomeCategories[0] == "Gaji" && ExpenseCategories[2] == SavingsCategory;
    var ok := ledger.SubmitTransaction(today, Income, "Gaji", 5000000, "");
    ok := ledger.SubmitTransaction(today, Expense, SavingsCategory, 1000000, "");
    assert ledger.transactions == [salary, saving];
    TwoRowBalance(salary, saving);
    assert Balance(ledger.transactions) == 4000000;
  }

  /** The balance of a two-row table. */
  lemma TwoRowBalance(a: Transaction, b: Transaction)
    ensures Balance([a, b]) == SignedAmount(a) + SignedAmount(b)
  {
    BalanceAppend([], a);
    assert [] + [a] == [a];
    BalanceAppend([a], b);
    assert [a] + [b] == [a, b];
  }

  /** A zero amount is rejected and leaves the table as it was. */
  method ZeroAmountScenario(today: Date) {
    var ledger := new Ledger();
    assert IncomeCategories[0] == "Gaji";
    var ok := ledger.SubmitTransaction(today, Income, "Gaji", 5000000, "");
    var ts := ledger.transactions;
    ok := ledger.SubmitTransaction(today, Income, "Gaji", 0, "");
    assert !ok && ledger.transactions == ts;
  }

  /** With 1,000,000 saved, a goal of 5,000,000 shows 20 percent. */
  method SavingsGoalScenario(today: Date) {
    var ledger := new Ledger();
    var saving := Transaction(today, Expense, SavingsCategory, 1000000, "");
    assert ExpenseCategories[2] == SavingsCategory;
    var ok := ledger.SubmitTransaction(today, Expense, SavingsCategory, 1000000, "");
    ok := ledger.SetGoal("Dana Darurat", 5000000);
    assert ledger.transactions == [] + [saving];
    SavingsPoolAppend([], saving);
    var g := ledger.goals["Dana Darurat"];
    assert g == Goal(5000000, 0);
    assert SavingsPool(ledger.transactions) == 1000000;
    assert GoalPercent(ledger.transactions, g) == 20.0;
  }

  /** Two "Keinginan (30%)" expenses of 100,000 and 50,000 make one bar of 150,000. */
  method WantsScenario(today: Date) {
    var ledger := new Ledger();
    var wants := "Keinginan (30%)";
    assert ExpenseCategories[1] == wants;
    var ok := ledger.SubmitTransaction(today, Expense, wants, 100000, "");
    ok := ledger.SubmitTransaction(today, Expense, wants, 50000, "");
    var t1, t2 := Transaction(today, Expense, wants, 100000, ""), Transaction(today, Expense, wants, 50000, "");
    assert ledger.transactions == [t1] + [t2];
    ExpenseByCategoryAppend([], t1);
    ExpenseByCategoryAppend([t1], t2);
    assert ExpenseByCategory(ledger.transactions)[wants] == 150000;
  }
}
