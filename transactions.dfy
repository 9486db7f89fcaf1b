/** One recorded ledger entry, the account balance derived from a sequence
    of them, and the layout of a bank statement line. */
module Transactions {
  import opened Money

  /** One recorded transaction as the ledger stores it: the `credit` and
      `debit` fields hold amounts in two-decimal form, the side that does
      not apply holding the blank sentinel "". */
  datatype Transaction = Transaction(credit: string, debit: string, date: string)

  /** The transaction a deposit of `amount` cents on `date` records. */
  function CreditOf(amount: nat, date: string): (t: Transaction)
    ensures t.credit == Round(amount) && ParseMoney(t.credit) == Some(amount as int)
    ensures t.debit == "" && t.date == date
  {
    Transaction(Round(amount), "", date)
  }

  /** The transaction a withdrawal of `amount` cents on `date` records. */
  function DebitOf(amount: nat, date: string): (t: Transaction)
    ensures t.debit == Round(amount) && ParseMoney(t.debit) == Some(amount as int)
    ensures t.credit == "" && t.date == date
  {
    Transaction("", Round(amount), date)
  }

  /** What a money field is worth: the amount it shows, 0 for the blank
      sentinel. */
  function CellValue(cell: string): int
  {
    match ParseMoney(cell)
    case Some(v) => v
    case None => 0
  }

  /** What a transaction adds to the balance. */
  function Signed(t: Transaction): int
  {
    CellValue(t.credit) - CellValue(t.debit)
  }

  /** The balance, accumulated in one pass in insertion order. */
  function Balance(ts: seq<Transaction>): int
  {
    if ts == [] then 0 else Balance(ts[..|ts| - 1]) + Signed(ts[|ts| - 1])
  }

  /** The credited amounts, in order (0 where a transaction is a debit). */
  function Credits(ts: seq<Transaction>): (r: seq<int>)
    ensures |r| == |ts|
  {
    if ts == [] then [] else [CellValue(ts[0].credit)] + Credits(ts[1..])
  }

  /** The debited amounts, in order (0 where a transaction is a credit). */
  function Debits(ts: seq<Transaction>): (r: seq<int>)
    ensures |r| == |ts|
  {
    if ts == [] then [] else [CellValue(ts[0].debit)] + Debits(ts[1..])
  }

  function Sum(s: seq<int>): int
  {
    if s == [] then 0 else s[0] + Sum(s[1..])
  }

  lemma {:induction false} SumConcat(a: seq<int>, b: seq<int>)
    ensures Sum(a + b) == Sum(a) + Sum(b)
    decreases |a|
  {
    if a != [] {
      assert (a + b)[1..] == a[1..] + b;
      SumConcat(a[1..], b);
    } else {
      assert a + b == b;
    }
  }

  lemma {:induction false} CreditsDebitsConcat(a: seq<Transaction>, b: seq<Transaction>)
    ensures Credits(a + b) == Credits(a) + Credits(b)
    ensures Debits(a + b) == Debits(a) + Debits(b)
    decreases |a|
  {
    if a != [] {
      assert (a + b)[0] == a[0];
      assert (a + b)[1..] == a[1..] + b;
      CreditsDebitsConcat(a[1..], b);
    } else {
      assert a + b == b;
    }
  }

  /** The one-pass balance is the total of the credits minus the total of
      the debits. */
  lemma {:induction false} BalanceIsCreditsMinusDebits(ts: seq<Transaction>)
    ensures Balance(ts) == Sum(Credits(ts)) - Sum(Debits(ts))
    decreases |ts|
  {
    if ts != [] {
      var init, last := ts[..|ts| - 1], ts[|ts| - 1];
      assert ts == init + [last];
      BalanceIsCreditsMinusDebits(init);
      CreditsDebitsConcat(init, [last]);
      SumConcat(Credits(init), Credits([last]));
      SumConcat(Debits(init), Debits([last]));
      assert [last][1..] == [];
    }
  }

  /** The balance of a concatenation is the sum of the balances, so the
      balance does not depend on the order of the two parts. */
  lemma BalanceConcat(a: seq<Transaction>, b: seq<Transaction>)
    ensures Balance(a + b) == Balance(a) + Balance(b)
    ensures Balance(a + b) == Balance(b + a)
  {
    BalanceIsCreditsMinusDebits(a);
    BalanceIsCreditsMinusDebits(b);
    BalanceIsCreditsMinusDebits(a + b);
    BalanceIsCreditsMinusDebits(b + a);
    CreditsDebitsConcat(a, b);
    CreditsDebitsConcat(b, a);
    SumConcat(Credits(a), Credits(b));
    SumConcat(Debits(a), Debits(b));
    SumConcat(Credits(b), Credits(a));
    SumConcat(Debits(b), Debits(a));
  }

  /** Recording a deposit raises the balance by its amount, a withdrawal
      lowers it by its amount. */
  lemma BalanceAfterRecord(ts: seq<Transaction>, amount: nat, date: string)
    ensures Balance(ts + [CreditOf(amount, date)]) == Balance(ts) + amount
    ensures Balance(ts + [DebitOf(amount, date)]) == Balance(ts) - amount
  {
  }

  /** The separator between the columns of a statement line. */
  const SEPARATOR: string := " || "
  /** The statement's header line. */
  const HEADER: string := "date     ||  credit    ||  debit     ||    balance"

  /** One statement line: date, formatted credit cell, formatted debit cell
      and the account balance behind the currency symbol. */
  function StatementLine(t: Transaction, balance: string): string
  {
    t.date + SEPARATOR + Format(t.credit) + SEPARATOR + Format(t.debit) + SEPARATOR + [POUND] + balance
  }

  /** One rendered line per transaction, in insertion order. */
  function RenderEach(ts: seq<Transaction>, render: Transaction -> string): (lines: seq<string>)
    ensures |lines| == |ts|
  {
    if ts == [] then [] else RenderEach(ts[..|ts| - 1], render) + [render(ts[|ts| - 1])]
  }

  /** RenderEach keeps the order and the count: its i-th line renders the
      i-th transaction. */
  lemma {:induction false} RenderEachAt(ts: seq<Transaction>, render: Transaction -> string)
    ensures forall i :: 0 <= i < |ts| ==> RenderEach(ts, render)[i] == render(ts[i])
    decreases |ts|
  {
    if ts != [] {
      RenderEachAt(ts[..|ts| - 1], render);
    }
  }

  /** Renders the transactions one at a time, in insertion order. */
  method RenderAll(ts: seq<Transaction>, render: Transaction -> string) returns (lines: seq<string>)
    ensures lines == RenderEach(ts, render)
  {
    lines := [];
    for i := 0 to |ts|
      invariant lines == RenderEach(ts[..i], render)
    {
      assert ts[..i + 1][..i] == ts[..i];
      lines := lines + [render(ts[i])];
    }
    assert ts[..|ts|] == ts;
  }

  /** Renders each transaction as a statement line showing `balance`. */
  function LineRenderer(balance: string): Transaction -> string
  {
    t => StatementLine(t, balance)
  }

  /** A statement: the header, then one line per transaction, in order. */
  function Statement(ts: seq<Transaction>, balance: string): (lines: seq<string>)
    ensures |lines| == |ts| + 1 && lines[0] == HEADER
  {
    [HEADER] + RenderEach(ts, LineRenderer(balance))
  }

  /** The i-th line after the header describes the i-th transaction. */
  lemma StatementLineAt(ts: seq<Transaction>, balance: string, i: nat)
    requires i < |ts|
    ensures Statement(ts, balance)[i + 1] == StatementLine(ts[i], balance)
  {
    var render := LineRenderer(balance);
    RenderEachAt(ts, render);
    assert Statement(ts, balance)[i + 1] == RenderEach(ts, render)[i];
  }

  /** A line ends with the currency symbol and `balance`. */
  predicate ShowsBalance(line: string, balance: string)
  {
    |line| > |balance| && line[|line| - |balance| - 1..] == [POUND] + balance
  }

  /** Whatever the transaction, its line ends with the balance it is given. */
  lemma StatementLineShowsBalance(t: Transaction, balance: string)
    ensures ShowsBalance(StatementLine(t, balance), balance)
  {
  }

  /** Every line after the header shows the same overall balance. */
  lemma StatementShowsOverallBalance(ts: seq<Transaction>, balance: string)
    ensures forall i :: 1 <= i < |Statement(ts, balance)| ==> ShowsBalance(Statement(ts, balance)[i], balance)
  {
    forall i | 1 <= i < |Statement(ts, balance)|
      ensures ShowsBalance(Statement(ts, balance)[i], balance)
    {
      StatementLineAt(ts, balance, i - 1);
      StatementLineShowsBalance(ts[i - 1], balance);
    }
  }

  /** Where each column of a line sits, given two cells of CELL_WIDTH. */
  lemma LineSlices(date: string, c: string, d: string, balance: string)
    requires |c| == CELL_WIDTH && |d| == CELL_WIDTH
    ensures var line, k := date + SEPARATOR + c + SEPARATOR + d + SEPARATOR + [POUND] + balance, |date|;
      |line| == k + 3 * |SEPARATOR| + 2 * CELL_WIDTH + 1 + |balance| &&
      line[..k] == date && line[k + 4..k + 14] == c && line[k + 18..k + 28] == d &&
      line[k + 32..] == [POUND] + balance
  {
  }

  /** A money field fits a cell and starts with no blank, as every field
      a deposit or a withdrawal records does when its amount has fewer than
      nine characters. */
  predicate FitsCell(cell: string)
  {
    |cell| < CELL_WIDTH && (cell == [] || cell[0] != ' ')
  }

  /** The columns of a statement line: the date, two cells of exactly
      CELL_WIDTH characters that read back as the transaction's credit and
      debit fields (blank when the field is blank or zero), and the balance
      last. */
  lemma StatementLineColumns(t: Transaction, balance: string)
    requires FitsCell(t.credit) && FitsCell(t.debit)
    ensures var line, k := StatementLine(t, balance), |t.date|;
      |line| == k + 3 * |SEPARATOR| + 2 * CELL_WIDTH + 1 + |balance| &&
      line[..k] == t.date &&
      Unformat(line[k + 4..k + 14]) == (if IsBlankCell(t.credit) then "" else t.credit) &&
      Unformat(line[k + 18..k + 28]) == (if IsBlankCell(t.debit) then "" else t.debit) &&
      line[k + 32..] == [POUND] + balance
  {
    FormatCell(t.credit);
    FormatCell(t.debit);
    UnformatFormat(t.credit);
    UnformatFormat(t.debit);
    LineSlices(t.date, Format(t.credit), Format(t.debit), balance);
  }

  /** A recorded deposit shows its amount in the credit column only, a
      recorded withdrawal in the debit column only. */
  lemma RecordedColumns(amount: nat, date: string)
    ensures Unformat(Format(CreditOf(amount, date).credit)) == (if amount == 0 then "" else Round(amount))
    ensures Unformat(Format(CreditOf(amount, date).debit)) == ""
    ensures Unformat(Format(DebitOf(amount, date).debit)) == (if amount == 0 then "" else Round(amount))
    ensures Unformat(Format(DebitOf(amount, date).credit)) == ""
  {
    FormatRoundTrip(amount);
    BlankCellFormat();
  }
}
