# Bank ledger (ood-bank-challenge) in Dafny

A model of a small in-memory bank ledger. An `Account` holds its holder's
first and last name and an append-only list of transactions. `deposit` and
`withdraw` record a credit or a debit on a date and refuse a missing date
with "Invalid date, must be dd/mm/yyyy". `getBalance` is every credit minus
every debit, written with two decimals. `round` writes an amount with two
decimals. `format` puts an amount in a ten-character cell behind `£`, or
leaves the cell blank for zero. `printBankStatement` produces a header and
one line per transaction, `date || credit || debit || £balance`, every line
showing the overall balance. A `Bank` keeps a list of accounts, and its
`addAccount` refuses anything that is not an account with both names
("Invalid entry").

The repository's implementation files (`src/account.js`,
`src/transactions.js`, `src/bank.js`) are not part of this model. The
model follows what the Jasmine suite `spec/account.spec.js` asserts about
them.

Modules, one per part of the program:

- `Errors` (errors.dfy) holds the two failures and their messages.
- `Money` (money.dfy) holds amounts as integer cents.
  - `Round` is `round`, and `ParseMoney` reads its output back.
  - `Format` is `format`, and `Unformat` reads a cell back.
- `Transactions` (transactions.dfy) holds a transaction and the balance and statement lines derived from a list of them.
  - A transaction is a record of its `credit`, `debit` and `date` fields, as the suite reads them.
  - The side that does not apply holds the blank sentinel `""`.
- `Accounts` (account.dfy) holds the `Account` class. Its `transactions` field is a sequence that the deposit and withdrawal methods append to.
- `Banking` (bank.dfy) holds the `Bank` class and its `accounts` field.
- `Scenarios` (scenarios.dfy) replays each test case as a client of the classes, proving its expected outcome.

## Model

| member | source | states |
|---|---|---|
| Accounts.Account.constructor | spec/account.spec.js:12-16 | a new account keeps the first and last name it was given and has no transactions |
| Accounts.Account.Deposit | spec/account.spec.js:17-25 | without a date: fails with InvalidDate and records nothing; with one: appends exactly one credit of the amount on that date, and the balance rises by the amount |
| Accounts.Account.Withdraw | spec/account.spec.js:31-39 | without a date: fails with InvalidDate and records nothing; with one: appends exactly one debit of the amount on that date, and the balance falls by the amount |
| Accounts.Account.GetBalance | spec/account.spec.js:40-46 | the balance string is the two-decimal rendering of the sum of the credits minus the sum of the debits of the stored transactions, and reads back as that amount; it takes no arguments |
| Accounts.Account.PrintBankStatement | spec/account.spec.js:68-73 | the lines are exactly the statement of the stored transactions with the account's balance |
| Transactions.RenderAll | spec/account.spec.js:71-73 | the loop over the transactions yields one rendered line per transaction, in order |
| Transactions.RenderEachAt | spec/account.spec.js:71-73 | the i-th rendered line is the rendering of the i-th transaction |
| Transactions.Statement | spec/account.spec.js:69-73 | a statement has one line more than there are transactions, and its first line is the header |
| Transactions.StatementLineAt | spec/account.spec.js:71-72 | line i+1 of a statement is `date \|\| format(credit) \|\| format(debit) \|\| £balance` for transaction i |
| Transactions.StatementShowsOverallBalance | spec/account.spec.js:72 | every line after the header ends with `£` and the same overall balance |
| Transactions.StatementLineShowsBalance | spec/account.spec.js:72 | any statement line ends with `£` and the balance it is given |
| Transactions.StatementLineColumns | spec/account.spec.js:72 | for fields that fit a cell: the line starts with the date; the two ten-character columns read back as the credit and debit fields (blank when blank or zero); the line ends with `£` and the balance |
| Transactions.RecordedColumns | spec/account.spec.js:72 | a recorded deposit shows its amount in the credit column and a blank debit column; a recorded withdrawal the reverse |
| Transactions.CreditOf | spec/account.spec.js:17-21 | a deposit's transaction has as credit field the two-decimal rendering of the amount, which reads back as the amount, a blank debit field and the given date |
| Transactions.DebitOf | spec/account.spec.js:31-39 | a withdrawal's transaction has as debit field the two-decimal rendering of the amount, which reads back as the amount, a blank credit field and the given date |
| Transactions.Balance | spec/account.spec.js:43 | the balance accumulated in one pass in insertion order; BalanceIsCreditsMinusDebits shows it is the credits total minus the debits total |
| Transactions.StatementLine | spec/account.spec.js:72 | the line `date \|\| format(credit) \|\| format(debit) \|\| £balance`; StatementLineColumns and StatementLineShowsBalance state where each column lies |
| Transactions.BalanceIsCreditsMinusDebits | spec/account.spec.js:40-46 | the one-pass balance equals the total of the credits minus the total of the debits |
| Transactions.BalanceAfterRecord | spec/account.spec.js:40-46 | appending a credit adds its amount to the balance; appending a debit subtracts it |
| Transactions.BalanceConcat | spec/account.spec.js:40-46 | the balance of two lists joined is the sum of their balances, whichever comes first |
| Transactions.SumConcat | spec/account.spec.js:40-46 | the total of a joined list is the sum of the totals |
| Transactions.CreditsDebitsConcat | spec/account.spec.js:40-46 | the credits and debits of a joined list are those of the parts, joined in order |
| Money.Round | spec/account.spec.js:55-62 | `round` loses nothing: its output reads back as the amount, for every amount, negative ones included |
| Money.RoundShape | spec/account.spec.js:55-62 | `round` writes at least one integer digit, '.', and exactly two fraction digits, with a '-' exactly when the amount is negative |
| Money.RoundInjective | spec/account.spec.js:55-62 | two amounts with the same rendering are equal |
| Money.RoundZero | spec/account.spec.js:51-53 | zero renders as "0.00" |
| Money.RoundBlank | spec/account.spec.js:51-53 | a rendered amount counts as a blank cell exactly when the amount is zero |
| Money.DecimalRoundTrip | spec/account.spec.js:55-62 | the integer part's decimal digits read back as the number |
| Money.ParseRenderUnsigned | spec/account.spec.js:55-62 | the rendering of a non-negative amount reads back as the amount |
| Money.Format | spec/account.spec.js:47-54 | a blank or zero cell formats to ten spaces; the result is ten characters wide, or one wider than a cell that does not fit |
| Money.FormatCell | spec/account.spec.js:47-54 | a blank or zero cell formats to ten spaces; any other cell formats to spaces, `£`, and the cell, ten characters wide, or one wider than the cell when it does not fit |
| Money.PadLeftSpaces | spec/account.spec.js:52 | padding puts exactly the missing number of spaces in front and never truncates |
| Money.UnformatFormat | spec/account.spec.js:47-54 | reading a formatted cell back gives the cell, or "" for a blank or zero cell |
| Money.FormatRoundTrip | spec/account.spec.js:47-54 | a formatted non-zero amount reads back as its rendering; a zero amount formats to ten spaces that read back as blank |
| Money.UnformatPadded | spec/account.spec.js:52 | stripping the padding and `£` from a padded cell recovers the cell |
| Money.TrimSpacesPrefix | spec/account.spec.js:52 | trimming leading spaces removes exactly the padding in front of a cell that starts with no blank |
| Money.BlankCellFormat | spec/account.spec.js:53 | an all-blank cell reads back as blank |
| Errors.Message | spec/account.spec.js:22-25 | a missing date is reported as "Invalid date, must be dd/mm/yyyy" and a refused bank entry (lines 89 and 98) as "Invalid entry" |
| Banking.Bank.constructor | spec/account.spec.js:84 | a new bank has no accounts and satisfies its invariant |
| Banking.Bank.AddAccount | spec/account.spec.js:88-99 | an account entry with both names is appended once and succeeds; anything else fails with InvalidEntry and leaves the list as it was; every stored account stays valid |
| Scenarios.CreateAccount | spec/account.spec.js:12-16 | `new Account('Frank', 'Zappa')` keeps both names and starts empty |
| Scenarios.DepositRecordsCredit | spec/account.spec.js:17-21 | after depositing 1000 the first transaction's credit is "1000.00" |
| Scenarios.MissingDateFails | spec/account.spec.js:22-25 | deposit and withdraw without a date both fail with "Invalid date, must be dd/mm/yyyy" and record nothing |
| Scenarios.DepositThenWithdraw | spec/account.spec.js:31-45 | deposit 50 and withdraw 10: two transactions, credit "50.00" first, debit "10.00" second, balance "40.00" |
| Scenarios.FormatExample | spec/account.spec.js:48-52 | `format("1.50")` is five spaces, `£` and "1.50" |
| Scenarios.FormatZeroExample | spec/account.spec.js:51-53 | formatting a zero amount gives ten spaces |
| Scenarios.RoundWholeExample | spec/account.spec.js:56-60 | 15 renders as "15.00" |
| Scenarios.RoundFractionExample | spec/account.spec.js:57-61 | 1.2 renders as "1.20" |
| Scenarios.StatementAccount | spec/account.spec.js:64-66 | deposits of 1000 and 2000 and a withdrawal of 500 are stored as three transactions in call order, with balance 2500.00 |
| Scenarios.BankStatement | spec/account.spec.js:63-74 | after exactly those three transactions (10/01, 13/01 and 14/01/2012), the statement is their statement: a header and one line per transaction in call order, each line showing the balance "2500.00" |
| Scenarios.StringEntryRefused | spec/account.spec.js:88-90 | `addAccount('Frank Zappa')` fails with "Invalid entry" and registers nothing |
| Scenarios.EmptyEntryRefused | spec/account.spec.js:97-99 | `addAccount('')` fails with InvalidEntry and registers nothing |
| Scenarios.AddAccountRegisters | spec/account.spec.js:91-96 | adding a valid account gives one stored account whose last name is "Zappa" |

## Left out

- Output: `printBankStatement` writes its lines to the console. The model returns them as a sequence of strings instead.
- The comparison at spec/account.spec.js:75 compares the statement's result with a freshly made closure. It states nothing about the statement, so it is not modelled.
- `createTransaction(date)` and `new Transaction(1, date)` (spec/account.spec.js:26-30): the suite gives no meaning to the amount they record, so they are not modelled.
- Floating point: amounts are whole cents. `round` is exact, so the rounding of `toFixed` at ties is not modelled; the suite never reaches a tie.
- Dates: only their presence is checked, as in the suite. The `dd/mm/yyyy` shape is not validated, and an empty date string is accepted.
- Overdrafts and negative amounts: amounts are non-negative, and a withdrawal is never refused for lack of funds. The balance itself may go negative, and `Round` renders that case with a '-'.
- Exceptions: `deposit`, `withdraw` and `addAccount` throw on bad input. The model returns an `Outcome` with the error instead.
- The blank sentinel: the suite does not show what the unused side of a transaction holds. The model uses `""`, which `format` turns into ten spaces, as it does zero.
- Money.Format: only `""` and `"0.00"` count as zero. Other zero spellings such as `"0"` or `"-0.00"` would get a `£`. `Round` never produces those spellings, so the formatted statement is the same on every state the model reaches. The numeric argument of `format(0)` is modelled through `Round`, as `Format(Round(0))`.
- Runtime type inspection in `addAccount`: an entry is either text or an account (`Banking.Entry`). `addAccount('', '')` is the text entry `""`; its second argument is ignored.
- Account names are fixed at construction. The suite never changes them, and the bank's invariant relies on this.
- Statement lines whose amounts do not fit a cell: `Transactions.StatementLineColumns` covers fields shorter than ten characters, which is every amount below one million pounds.
