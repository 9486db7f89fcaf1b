/** The bank: a list of registered accounts that admits only account
    entries with both names present. */
module Banking {
  import opened Accounts
  import opened Errors

  /** What `addAccount` can be handed: plain text, or an account. */
  datatype Entry = Text(text: string) | AccountEntry(account: Account)

  /** An entry the bank admits: an account whose names are both non-empty. */
  predicate IsValidEntry(entry: Entry)
  {
    entry.AccountEntry? && entry.account.firstName != "" && entry.account.lastName != ""
  }

  class Bank {
    var accounts: seq<Account>

    /** Every registered account passed validation. */
    ghost predicate Valid()
      reads this
    {
      forall i :: 0 <= i < |accounts| ==> IsValidEntry(AccountEntry(accounts[i]))
    }

    constructor ()
      ensures Valid() && accounts == []
    {
      accounts := [];
    }

    /** `addAccount`: appends a valid account entry; refuses anything else
        with "Invalid entry" and leaves `accounts` as it was. */
    method AddAccount(entry: Entry) returns (outcome: Outcome)
      requires Valid()
      modifies this`accounts
      ensures Valid()
      ensures IsValidEntry(entry) ==> outcome == Pass && accounts == old(accounts) + [entry.account]
      ensures !IsValidEntry(entry) ==> outcome == Fail(InvalidEntry) && accounts == old(accounts)
    {
      if !IsValidEntry(entry) {
        return Fail(InvalidEntry);
      }
      accounts := accounts + [entry.account];
      outcome := Pass;
    }
  }
}
