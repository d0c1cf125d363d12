# Bank accounts with guarded withdrawals and a fixed transfer

A Dafny model of a small C++ program with three account classes and a transfer
between two accounts. The classes are a generic `Account`, a `SavingsAccount`
with an interest rate and a `CurrentAccount` with an overdraft limit. Each
account holds a number, a holder and a balance. A deposit always adds to the
balance. A withdrawal is accepted or refused by the rule of the account's
class; a refused withdrawal leaves the balance as it was:

- generic: the amount may not exceed the balance;
- savings: at least 100 must remain;
- current: the balance may not fall below minus the overdraft limit.

The transfer (`operator+` of a current and a savings account) moves a fixed
300. Its own guard checks only that the savings balance is at least 300. It
then calls the savings withdrawal, which applies the minimum-balance rule on
its own, and it credits the current account whether or not that withdrawal
was accepted. With a savings balance from 300 up to but not including 400,
the current account gains 300 while the savings account keeps its balance. The model reproduces this as
written and proves its consequences; it does not correct it.

Layout:

- `Ledger.dfy` (module `Ledger`): the rules as pure functions over balances.
  `Kind` is a tagged union standing for the three classes; it carries the
  interest rate or the overdraft limit. `Floor` is an independent statement of
  the lowest balance each class lets a withdrawal leave, and the dispatched
  `Withdraw` is proved against it; the three per-class rules state their own
  bounds (0, 100 and minus the overdraft limit). `Run` replays a sequence of
  deposits and withdrawals, for the lemmas about histories. `Transfer` is the transfer on
  two balances.
- `Accounts.dfy` (module `Accounts`): class `Account`, whose balance is updated
  in place. Its `kind` field records which class the object was built as, and
  `Withdraw` dispatches on it like the virtual `withdraw`. The number, the
  holder and the kind are `const`, so no method can change them, and the
  interest rate and the overdraft limit are part of the kind. Only `balance`
  is a mutable field. `GetBalance` and `GetType` are the read-only accessors.
  `Deposit` and `Withdraw` state the new balance as `Ledger.Apply` of the
  matching call, so each call on an object is one step of `Ledger.Run`. The
  module-level `Transfer` updates both account objects in place.
- `Scenario.dfy` (module `Scenario`): the fixed start-up scenario of `main`,
  without its printing.

Money, rates and limits are exact `real` numbers.

## Model

| member | source | states |
|---|---|---|
| `Ledger.BaseWithdraw` | program.cpp:24-30 | accepted exactly when the balance minus the amount is at least 0; when accepted the amount leaves and the balance stays non-negative; when refused the balance is unchanged |
| `Ledger.SavingsWithdraw` | program.cpp:54-61 | accepted exactly when the amount is at most the balance minus 100; when accepted the amount leaves and at least 100 remains; when refused the balance is unchanged |
| `Ledger.CurrentWithdraw` | program.cpp:81-87 | accepted exactly when the amount is at most the balance plus the overdraft limit; when accepted the amount leaves and the balance is at least minus the limit; when refused the balance is unchanged |
| `Ledger.Withdraw` | program.cpp:24-87 | the dispatched withdrawal: accepted exactly when the balance left stays at or above the floor of the account's class (0, 100, or minus the overdraft limit); only then does the amount leave; the result is at the floor or above, or it is the old balance |
| `Ledger.TypeName` | program.cpp:32-91 | each class's label, and the label determines the class: "Generic Account", "Savings Account" or "Current Account" exactly for a generic, savings or current account |
| `Ledger.TypeNameIdentifiesKind` | program.cpp:32-91 | the labels "Generic Account", "Savings Account" and "Current Account" are equal exactly when the two accounts are of the same class |
| `Ledger.DepositThenWithdraw` | program.cpp:20-87 | a deposit followed by a withdrawal of the same amount restores the old balance exactly when that balance was at or above the floor; otherwise the withdrawal is refused and the deposit stays |
| `Ledger.RunKeepsFloor` | program.cpp:20-87 | an account that starts at or above the floor of its class stays there through any sequence of non-negative deposits and withdrawals |
| `Ledger.WithdrawalsNeverRaise` | program.cpp:24-87 | any sequence of non-negative withdrawals, accepted or refused, never raises the balance |
| `Ledger.Transfer` | program.cpp:94-103 | proceeds exactly when savings is at least 300, and withdraws exactly when savings is at least 400; below 300 nothing changes; from 400 up, 300 moves and the sum of the two balances is kept; from 300 up to 400 savings is unchanged, current gains 300 and the sum grows by 300 |
| `Ledger.TransferMintsMoney` | program.cpp:96-98 | a concrete instance of the defect: with savings at 350 and current at 0, savings stays at 350 and current ends at 300 |
| `Ledger.RepeatedTransferMintsMoney` | program.cpp:94-103 | with savings from 300 up to 400, n transfers in a row leave savings unchanged and credit current n times 300 |
| `Accounts.Account.constructor` | program.cpp:11-12 | a generic account holds the given number, holder and initial balance |
| `Accounts.Account.SavingsAccount` | program.cpp:46-47 | a savings account holds the given number, holder, initial balance and interest rate; the initial balance is not checked against the minimum |
| `Accounts.Account.CurrentAccount` | program.cpp:73-74 | a current account holds the given number, holder, initial balance and overdraft limit |
| `Accounts.Account.GetBalance` | program.cpp:36-38 | returns the object's current balance and changes nothing |
| `Accounts.Account.GetType` | program.cpp:32-91 | returns `Ledger.TypeName` of the class the object was built as, so "Savings Account" exactly for a savings account and "Current Account" exactly for a current account |
| `Accounts.GetTypeIdentifiesClass` | program.cpp:32-91 | two account objects report the same label exactly when they were built as the same class |
| `Accounts.Account.Deposit` | program.cpp:20-22 | the balance becomes `Ledger.Apply` of a deposit, which is the old balance plus the amount, whatever its sign; nothing else changes |
| `Accounts.Account.Withdraw` | program.cpp:24-87 | updates the balance in place exactly as `Ledger.Withdraw` (and so `Ledger.Apply` of a withdrawal) prescribes for the object's class, and reports acceptance; accepted exactly when the floor is kept; nothing else changes |
| `Accounts.Transfer` | program.cpp:94-103 | updates both account objects in place exactly as `Ledger.Transfer` prescribes, and reports whether the guard passed and whether the savings withdrawal was accepted |
| `Scenario.ReplayMain` | program.cpp:110-131 | the start-up scenario: the deposit leaves savings at 1500, the current withdrawal is accepted and leaves 1000, the transfer passes its guard and withdraws from savings; savings ends at 1200 and current at 1300 |

## Left out

- `displayDetails` of the three classes and `operator<<` (program.cpp:14-18, 49-52, 76-79, 105-108) print text to standard output. They are output formatting only; `GetType` keeps the labels they print.
- The printed refusal messages of the three withdrawals and of the transfer are not modelled as text. Each is an `accepted`, `proceeded` or `withdrawn` flag that is false where the message would print.
- `double` arithmetic: balances, limits and rates are exact reals, so binary floating-point rounding is not modelled.
- The interest rate is stored only. The original never applies it to a balance, so neither does the model.
- `operator+` returns a copy of the current account, which `main` assigns back to the same object. The model updates both objects in place and returns only the two flags, so copy semantics are not modelled.
- Static typing of the transfer's parameters becomes the precondition that the first account was built as a current account and the second as a savings account.
