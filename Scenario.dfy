/** The fixed scenario the program runs at start-up, without its printing. */
module Scenario {
  import opened Accounts

  /** A savings account of 1000 at 2% and a current account of 2000 with an
      overdraft limit of 500; 500 is deposited into savings, 1000 withdrawn
      from current (leaving 1500 and 1000), then one transfer runs. Every step
      is accepted, and the accounts end at 1200 and 1300. */
  method ReplayMain() returns (savingsAfterDeposit: real, currentAfterWithdrawal: real, withdrawalAccepted: bool,
                               transferProceeded: bool, transferWithdrawn: bool,
                               savingsBalance: real, currentBalance: real)
    ensures savingsAfterDeposit == 1500.0 && currentAfterWithdrawal == 1000.0 && withdrawalAccepted
    ensures transferProceeded && transferWithdrawn
    ensures savingsBalance == 1200.0 && currentBalance == 1300.0
  {
    var savings := new Account.SavingsAccount("S123", "John Doe", 1000.0, 0.02);
    var current := new Account.CurrentAccount("C456", "Jane Doe", 2000.0, 500.0);
    savings.Deposit(500.0);
    withdrawalAccepted := current.Withdraw(1000.0);
    savingsAfterDeposit, currentAfterWithdrawal := savings.GetBalance(), current.GetBalance();
    transferProceeded, transferWithdrawn := Accounts.Transfer(current, savings);
    savingsBalance, currentBalance := savings.GetBalance(), current.GetBalance();
  }
}
