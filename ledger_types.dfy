/** The rows of the transactions table and the entries of the goal registry. */
module LedgerTypes {

  /** A calendar date as a day number (days since 1970-01-01). Rows are
      stamped with the day they are added, at midnight, so only the day
      matters for ordering. */
  type Date = int

  /** The "Jenis" column: "Pemasukan" (income) or "Pengeluaran" (expense). */
  datatype Kind = Income | Expense

  /** One row of the table: Tanggal, Jenis, Kategori, Jumlah (whole Rupiah),
      Deskripsi. */
  datatype Transaction = Transaction(
    date: Date,
    kind: Kind,
    category: string,
    amount: int,
    description: string)

  /** A registry entry `{target, saved}`; `saved` is always stored as 0. */
  datatype Goal = Goal(target: int, saved: int)

  /** The category whose rows make up the savings pool of every goal. */
  const SavingsCategory: string := "Tabungan (20%)"

  /** The categories the form offers for income rows. */
  const IncomeCategories: seq<string> := ["Gaji", "Bonus", "Bisnis", "Lainnya"]

  /** The categories the form offers for expense rows (the 50/30/20 buckets). */
  const ExpenseCategories: seq<string> :=
    ["Kebutuhan (50%)", "Keinginan (30%)", SavingsCategory, "Lainnya"]

  /** The category list the form shows for a kind. */
  function CategoriesFor(kind: Kind): (cs: seq<string>)
    ensures |cs| == 4 && cs[3] == "Lainnya"
    ensures kind == Expense ==> SavingsCategory in cs
    ensures kind == Income ==> SavingsCategory !in cs
  {
    if kind == Income then
      assert forall c :: c in IncomeCategories ==> |c| < |SavingsCategory|;
      IncomeCategories
    else
      assert ExpenseCategories[2] == SavingsCategory && SavingsCategory in ExpenseCategories;
      ExpenseCategories
  }

  /** A row the form can add: a positive amount and a category offered for its kind. */
  predicate WellFormed(t: Transaction) {
    t.amount > 0 && t.category in CategoriesFor(t.kind)
  }

  predicate AllWellFormed(ts: seq<Transaction>) {
    forall i :: 0 <= i < |ts| ==> WellFormed(ts[i])
  }

  /** The table stays well formed exactly when the appended row is. */
  lemma AllWellFormedAppend(ts: seq<Transaction>, t: Transaction)
    ensures AllWellFormed(ts + [t]) <==> AllWellFormed(ts) && WellFormed(t)
  {
    var s := ts + [t];
    assert s[|ts|] == t;
    assert forall i :: 0 <= i < |ts| ==> s[i] == ts[i];
  }
}
