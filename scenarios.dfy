/** The behaviour the ledger's test suite pins down, restated as clients of
    the model: each method replays one test case and promises its outcome. */
module Scenarios {
  import opened Money
  import opened Transactions
  import opened Errors
  import opened Accounts
  import opened Banking

  const DATE: string := "13/12/2024"

  // The renderings of the test cases' amounts, a couple at a time.
  lemma DepositedAmount()
    ensures Round(5000) == "50.00"
  {
  }

  lemma WithdrawnAmount()
    ensures Round(1000) == "10.00"
  {
  }

  lemma BalanceAmount()
    ensures Round(4000) == "40.00"
  {
  }

  lemma StatementBalanceAmount()
    ensures Round(250000) == "2500.00"
  {
  }

  lemma DepositAmount()
    ensures Round(100000) == "1000.00"
  {
  }

  /** A new account keeps both names and starts with no transactions. */
  method CreateAccount() returns (first: string, last: string, count: nat)
    ensures first == "Frank" && last == "Zappa" && count == 0
  {
    var account := new Account("Frank", "Zappa");
    first, last, count := account.firstName, account.lastName, |account.transactions|;
  }

  /** Depositing 1000 records a credit shown as "1000.00". */
  method DepositRecordsCredit() returns (credit: string)
    ensures credit == "1000.00"
  {
    var account := new Account("Frank", "Zappa");
    var _ := account.Deposit(100000, Some(DATE));
    assert account.transactions == [CreditOf(100000, DATE)];
    DepositAmount();
    credit := account.transactions[0].credit;
  }

  /** Deposit and withdraw without a date both fail with the date message
      and record nothing. */
  method MissingDateFails() returns (deposit: Outcome, withdraw: Outcome, count: nat)
    ensures deposit == Fail(InvalidDate) && withdraw == Fail(InvalidDate) && count == 0
    ensures Message(deposit.error) == "Invalid date, must be dd/mm/yyyy"
  {
    var account := new Account("Frank", "Zappa");
    deposit := account.Deposit(15000, None);
    withdraw := account.Withdraw(15000, None);
    count := |account.transactions|;
  }

  /** Deposit 50 then withdraw 10: two transactions, the credit first and
      the debit second, and a balance of "40.00". */
  method DepositThenWithdraw() returns (count: nat, credit: string, debit: string, balance: string)
    ensures count == 2 && credit == "50.00" && debit == "10.00" && balance == "40.00"
  {
    var account := new Account("Frank", "Zappa");
    var _ := account.Deposit(5000, Some(DATE));
    var _ := account.Withdraw(1000, Some(DATE));
    var ts := account.transactions;
    assert ts == [CreditOf(5000, DATE), DebitOf(1000, DATE)];
    DepositedAmount();
    WithdrawnAmount();
    BalanceAmount();
    count := |ts|;
    credit := ts[0].credit;
    debit := ts[1].debit;
    balance := account.GetBalance();
  }

  /** The formatting example "1.50": five blanks, the symbol, the amount. */
  lemma FormatExample()
    ensures Format("1.50") == "     \U{00A3}1.50"
  {
    FormatCell("1.50");
    assert Spaces(5) == "     ";
  }

  /** Formatting a zero amount gives an all-blank cell. */
  lemma FormatZeroExample()
    ensures Format(Round(0)) == "          "
  {
    RoundZero();
  }

  /** The rounding example 15. */
  lemma RoundWholeExample()
    ensures Round(1500) == "15.00"
  {
  }

  /** The rounding example 1.2. */
  lemma RoundFractionExample()
    ensures Round(120) == "1.20"
  {
  }

  /** Deposits of 1000 and 2000 and a withdrawal of 500 on an account of
      its own: three transactions in call order, with balance 2500.00. */
  method StatementAccount() returns (account: Account)
    ensures account.transactions == [CreditOf(100000, "10/01/2012"), CreditOf(200000, "13/01/2012"), DebitOf(50000, "14/01/2012")]
    ensures Balance(account.transactions) == 250000
  {
    account := new Account("Frank", "Zappa");
    var _ := account.Deposit(100000, Some("10/01/2012"));
    var _ := account.Deposit(200000, Some("13/01/2012"));
    var _ := account.Withdraw(50000, Some("14/01/2012"));
  }

  /** The statement after those three transactions: a header and one line
      per transaction, in call order, every line showing the balance
      2500.00. */
  method BankStatement() returns (transactions: seq<Transaction>, balance: string, lines: seq<string>)
    ensures transactions == [CreditOf(100000, "10/01/2012"), CreditOf(200000, "13/01/2012"), DebitOf(50000, "14/01/2012")]
    ensures balance == "2500.00"
    ensures |lines| == 4 && lines[0] == HEADER
    ensures lines == Statement(transactions, balance)
    ensures forall i :: 1 <= i < 4 ==> ShowsBalance(lines[i], "2500.00")
  {
    var account := StatementAccount();
    lines := account.PrintBankStatement();
    transactions, balance := account.transactions, account.GetBalance();
    BalanceIsCreditsMinusDebits(transactions);
    StatementBalanceAmount();
    StatementShowsOverallBalance(transactions, balance);
  }

  /** A plain string is not an account: refused, nothing registered. */
  method StringEntryRefused() returns (outcome: Outcome, count: nat)
    ensures outcome == Fail(InvalidEntry) && Message(outcome.error) == "Invalid entry" && count == 0
  {
    var bank := new Bank();
    outcome := bank.AddAccount(Text("Frank Zappa"));
    count := |bank.accounts|;
  }

  /** An empty string entry is refused too. */
  method EmptyEntryRefused() returns (outcome: Outcome, count: nat)
    ensures outcome == Fail(InvalidEntry) && count == 0
  {
    var bank := new Bank();
    outcome := bank.AddAccount(Text(""));
    count := |bank.accounts|;
  }

  /** A valid account is registered exactly once and keeps its last name. */
  method AddAccountRegisters() returns (count: nat, lastName: string)
    ensures count == 1 && lastName == "Zappa"
  {
    var bank := new Bank();
    var account := new Account("Frank", "Zappa");
    var _ := account.Deposit(5000, Some(DATE));
    var _ := bank.AddAccount(AccountEntry(account));
    count := |bank.accounts|;
    lastName := bank.accounts[0].lastName;
  }
}
