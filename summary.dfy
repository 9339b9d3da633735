/** The financial summary sentence put into the assistant's prompt, and a
    reader showing that the sentence carries exactly the income, expense and
    balance of the table. */
module Summary {
  import opened LedgerTypes
  import opened Aggregates
  import opened AmountFormat

  /** The fixed sentence used while the table has no rows. */
  const NoDataSentence: string := "Data keuangan pengguna saat ini belum ada."

  const IncomeLead: string := "Ringkasan keuangan: Pemasukan Rp "
  const ExpenseLead: string := ", Pengeluaran Rp "
  const BalanceLead: string := ", Saldo Rp "
  const Closing: string := "."

  /** What a summary sentence says. */
  datatype Reading = NoData | Figures(income: int, expense: int, balance: int)

  /** The sentence reporting three figures. */
  function FiguresSentence(income: int, expense: int, balance: int): (s: string)
    ensures s != NoDataSentence
  {
    var figures := FormatAmount(income) + (ExpenseLead + (FormatAmount(expense)
      + (BalanceLead + (FormatAmount(balance) + Closing))));
    assert (IncomeLead + figures)[0] == 'R' && NoDataSentence[0] == 'D';
    IncomeLead + figures
  }

  /** The summary of a table: the fixed sentence when it is empty, otherwise
      its income total, expense total and balance. */
  function SummaryText(ts: seq<Transaction>): (s: string)
    ensures s == NoDataSentence <==> ts == []
  {
    if ts == [] then NoDataSentence
    else FiguresSentence(TotalByKind(ts, Income), TotalByKind(ts, Expense), Balance(ts))
  }

  /** Recovers what a summary sentence says, or None for any other text. */
  function ReadSummary(s: string): Option<Reading> {
    if s == NoDataSentence then Some(NoData)
    else if !(IncomeLead <= s) then None
    else match ReadAmount(s[|IncomeLead|..])
      case None => None
      case Some((income, r1)) =>
        if !(ExpenseLead <= r1) then None
        else match ReadAmount(r1[|ExpenseLead|..])
          case None => None
          case Some((expense, r2)) =>
            if !(BalanceLead <= r2) then None
            else match ReadAmount(r2[|BalanceLead|..])
              case None => None
              case Some((balance, r3)) =>
                if r3 == Closing then Some(Figures(income, expense, balance)) else None
  }

  /** An amount printed after a lead is read back from the end of the lead. */
  lemma ReadAfterLead(lead: string, n: int, rest: string)
    requires Stops(rest)
    ensures lead <= lead + (FormatAmount(n) + rest)
    ensures ReadAmount((lead + (FormatAmount(n) + rest))[|lead|..]) == Some((n, rest))
  {
    assert (lead + (FormatAmount(n) + rest))[|lead|..] == FormatAmount(n) + rest;
    ReadFormatted(n, rest);
  }

  /** Reading a figures sentence gives back its three figures. */
  lemma ReadFiguresSentence(income: int, expense: int, balance: int)
    ensures ReadSummary(FiguresSentence(income, expense, balance)) == Some(Figures(income, expense, balance))
  {
    var a, b, c := FormatAmount(income), FormatAmount(expense), FormatAmount(balance);
    var tail2 := BalanceLead + (c + Closing);
    var tail1 := ExpenseLead + (b + tail2);
    assert FiguresSentence(income, expense, balance) == IncomeLead + (a + tail1);
    assert tail1[0] == ',' && tail1[1] == ' ';
    assert tail2[0] == ',' && tail2[1] == ' ';
    ReadAfterLead(IncomeLead, income, tail1);
    ReadAfterLead(ExpenseLead, expense, tail2);
    ReadAfterLead(BalanceLead, balance, Closing);
  }

  /** The summary of any table reads back as "no data" when the table is
      empty and otherwise as its income total, expense total and balance. */
  lemma SummaryRoundTrip(ts: seq<Transaction>)
    ensures ReadSummary(SummaryText(ts)) == Some(
      if ts == [] then NoData
      else Figures(TotalByKind(ts, Income), TotalByKind(ts, Expense), Balance(ts)))
  {
    if ts != [] {
      ReadFiguresSentence(TotalByKind(ts, Income), TotalByKind(ts, Expense), Balance(ts));
    }
  }
}
