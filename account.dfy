/** An account holder's ledger: an append-only sequence of transactions with
    the balance and the bank statement derived from it. */
module Accounts {
  import opened Money
  import opened Transactions
  import opened Errors

  class Account {
    const firstName: string
    const lastName: string
    var transactions: seq<Transaction>

    constructor (firstName: string, lastName: string)
      ensures this.firstName == firstName && this.lastName == lastName
      ensures transactions == []
    {
      this.firstName := firstName;
      this.lastName := lastName;
      transactions := [];
    }

    /** `deposit`: refuses a missing date and records nothing; otherwise
        appends one credit of `amount` on `date`. */
    method Deposit(amount: nat, date: Option<string>) returns (outcome: Outcome)
      modifies this`transactions
      ensures date.None? ==> outcome == Fail(InvalidDate) && transactions == old(transactions)
      ensures date.Some? ==> outcome == Pass && transactions == old(transactions) + [CreditOf(amount, date.value)]
      ensures Balance(transactions) == Balance(old(transactions)) + (if date.Some? then amount else 0)
    {
      if date.None? {
        return Fail(InvalidDate);
      }
      BalanceAfterRecord(transactions, amount, date.value);
      transactions := transactions + [CreditOf(amount, date.value)];
      outcome := Pass;
    }

    /** `withdraw`: refuses a missing date and records nothing; otherwise
        appends one debit of `amount` on `date`. No funds are checked. */
    method Withdraw(amount: nat, date: Option<string>) returns (outcome: Outcome)
      modifies this`transactions
      ensures date.None? ==> outcome == Fail(InvalidDate) && transactions == old(transactions)
      ensures date.Some? ==> outcome == Pass && transactions == old(transactions) + [DebitOf(amount, date.value)]
      ensures Balance(transactions) == Balance(old(transactions)) - (if date.Some? then amount else 0)
    {
      if date.None? {
        return Fail(InvalidDate);
      }
      BalanceAfterRecord(transactions, amount, date.value);
      transactions := transactions + [DebitOf(amount, date.value)];
      outcome := Pass;
    }

    /** `getBalance`: the balance of every stored transaction, in two-decimal
        form. It takes no amounts: the stored sequence alone decides it. */
    function GetBalance(): (r: string)
      reads this
      ensures r == Round(Sum(Credits(transactions)) - Sum(Debits(transactions)))
      ensures ParseMoney(r) == Some(Sum(Credits(transactions)) - Sum(Debits(transactions)))
    {
      BalanceIsCreditsMinusDebits(transactions);
      Round(Balance(transactions))
    }

    /** `printBankStatement`: the header, then one line per transaction in
        insertion order, each showing the overall balance. */
    method PrintBankStatement() returns (lines: seq<string>)
      ensures lines == Statement(transactions, GetBalance())
    {
      var body := RenderAll(transactions, LineRenderer(GetBalance()));
      lines := [HEADER] + body;
    }
  }
}
