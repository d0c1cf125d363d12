/** The balance rules of the three account classes and of the savings-to-current
    transfer, as pure functions over balances. The class in Accounts.dfy updates
    its balance in place and is specified by these functions.

    Money is an exact `real`: the binary floating point of the original is not
    modelled. */
module Ledger {

  /** The fixed minimum balance of a savings account. */
  const MinBalance: real := 100.0

  /** The fixed amount that a transfer moves from savings to current. */
  const TransferAmount: real := 300.0

  /** Which class an account object belongs to, with the state that class adds:
      a savings account stores an interest rate (never applied to the balance),
      a current account an overdraft limit. */
  datatype Kind = Generic | Savings(interestRate: real) | Current(overdraftLimit: real)

  /** The lowest balance a withdrawal of each kind may leave behind. */
  function Floor(k: Kind): real
  {
    match k
    case Generic => 0.0
    case Savings(_) => MinBalance
    case Current(limit) => -limit
  }

  /** The label each class reports for itself. */
  function TypeName(k: Kind): (name: string)
    ensures k.Generic? <==> name == "Generic Account"
    ensures k.Savings? <==> name == "Savings Account"
    ensures k.Current? <==> name == "Current Account"
  {
    match k
    case Generic => "Generic Account"
    case Savings(_) => "Savings Account"
    case Current(_) => "Current Account"
  }

  /** The three labels tell the three classes apart. */
  lemma TypeNameIdentifiesKind(a: Kind, b: Kind)
    ensures TypeName(a) == TypeName(b) <==>
            (a.Generic? && b.Generic?) || (a.Savings? && b.Savings?) || (a.Current? && b.Current?)
  {
  }

  /** What a withdrawal did: whether it was accepted, and the balance after it.
      A rejected withdrawal is reported by the original only as a printed
      message; here it is `accepted == false`. */
  datatype Outcome = Outcome(accepted: bool, balance: real)

  /** The base class rule: the amount may not exceed the balance. */
  function BaseWithdraw(balance: real, amount: real): (r: Outcome)
    ensures r.accepted <==> balance - amount >= 0.0
    ensures r.accepted ==> r.balance == balance - amount && r.balance >= 0.0
    ensures !r.accepted ==> r.balance == balance
  {
    if amount <= balance then Outcome(true, balance - amount) else Outcome(false, balance)
  }

  /** The savings rule: what remains must be at least the minimum balance. */
  function SavingsWithdraw(balance: real, amount: real): (r: Outcome)
    ensures r.accepted <==> amount <= balance - MinBalance
    ensures r.accepted ==> r.balance == balance - amount && r.balance >= MinBalance
    ensures !r.accepted ==> r.balance == balance
  {
    if balance - amount >= MinBalance then Outcome(true, balance - amount) else Outcome(false, balance)
  }

  /** The current-account rule: the balance may go negative down to the
      overdraft limit and no further. */
  function CurrentWithdraw(overdraftLimit: real, balance: real, amount: real): (r: Outcome)
    ensures r.accepted <==> amount <= balance + overdraftLimit
    ensures r.accepted ==> r.balance == balance - amount && r.balance >= -overdraftLimit
    ensures !r.accepted ==> r.balance == balance
  {
    if balance - amount >= -overdraftLimit then Outcome(true, balance - amount) else Outcome(false, balance)
  }

  /** A withdrawal dispatched on the class of the account, as the virtual
      `withdraw` is: accepted exactly when the balance stays at or above the
      floor of that class, and then the amount leaves; otherwise nothing moves. */
  function Withdraw(k: Kind, balance: real, amount: real): (r: Outcome)
    ensures r.accepted <==> balance - amount >= Floor(k)
    ensures r.balance == (if r.accepted then balance - amount else balance)
    ensures r.balance >= Floor(k) || r.balance == balance
  {
    match k
    case Generic => BaseWithdraw(balance, amount)
    case Savings(_) => SavingsWithdraw(balance, amount)
    case Current(limit) => CurrentWithdraw(limit, balance, amount)
  }

  /** Depositing an amount and then withdrawing it again restores the balance
      exactly when the original balance was at or above the floor; otherwise
      the withdrawal is refused and the deposit stays. */
  lemma DepositThenWithdraw(k: Kind, balance: real, amount: real)
    ensures Withdraw(k, balance + amount, amount) ==
            if balance >= Floor(k) then Outcome(true, balance) else Outcome(false, balance + amount)
  {
  }

  /** One balance-changing call on an account. */
  datatype Op = Deposit(amount: real) | Withdrawal(amount: real)

  /** The balance after one call: a deposit adds without any check, a
      withdrawal follows the rule of the account's class. */
  function Apply(k: Kind, balance: real, op: Op): real
  {
    match op
    case Deposit(amount) => balance + amount
    case Withdrawal(amount) => Withdraw(k, balance, amount).balance
  }

  /** The balance after a sequence of calls, first call first. */
  function Run(k: Kind, balance: real, ops: seq<Op>): real
    decreases |ops|
  {
    if ops == [] then balance else Run(k, Apply(k, balance, ops[0]), ops[1..])
  }

  /** An account that starts at or above its floor stays there through any
      sequence of withdrawals and non-negative deposits: withdrawals can never
      take it below the floor of its class. */
  lemma {:induction false} RunKeepsFloor(k: Kind, balance: real, ops: seq<Op>)
    requires balance >= Floor(k)
    requires forall i :: 0 <= i < |ops| && ops[i].Deposit? ==> ops[i].amount >= 0.0
    ensures Run(k, balance, ops) >= Floor(k)
    decreases |ops|
  {
    if ops != [] {
      var next := Apply(k, balance, ops[0]);
      assert next >= Floor(k);
      forall i | 0 <= i < |ops[1..]| && ops[1..][i].Deposit?
        ensures ops[1..][i].amount >= 0.0
      {
        assert ops[1..][i] == ops[i + 1];
      }
      RunKeepsFloor(k, next, ops[1..]);
    }
  }

  /** A sequence of withdrawals alone never raises the balance. */
  lemma {:induction false} WithdrawalsNeverRaise(k: Kind, balance: real, ops: seq<Op>)
    requires forall i :: 0 <= i < |ops| ==> ops[i].Withdrawal? && ops[i].amount >= 0.0
    ensures Run(k, balance, ops) <= balance
    decreases |ops|
  {
    if ops != [] {
      var next := Apply(k, balance, ops[0]);
      assert next <= balance;
      forall i | 0 <= i < |ops[1..]|
        ensures ops[1..][i].Withdrawal? && ops[1..][i].amount >= 0.0
      {
        assert ops[1..][i] == ops[i + 1];
      }
      WithdrawalsNeverRaise(k, next, ops[1..]);
    }
  }

  /** What a transfer did: whether its own guard let it proceed, whether the
      savings withdrawal inside it was accepted, and both balances after it. */
  datatype TransferOutcome = TransferOutcome(proceeded: bool, withdrawn: bool, current: real, savings: real)

  /** The transfer of a fixed amount from a savings account to a current
      account, as written: the guard checks only that the savings balance
      covers the amount, then the savings withdrawal is attempted under its own
      minimum-balance rule, and the current account is credited whatever that
      withdrawal did. So a savings balance of at least 300 but below 400 lets
      the current account gain 300 that the savings account never gave up. */
  function Transfer(current: real, savings: real): (r: TransferOutcome)
    ensures r.proceeded <==> savings >= TransferAmount
    ensures r.withdrawn <==> savings >= TransferAmount + MinBalance
    ensures !r.proceeded ==> r.current == current && r.savings == savings
    ensures r.withdrawn ==> r.savings == savings - TransferAmount && r.current == current + TransferAmount
    ensures r.withdrawn ==> r.current + r.savings == current + savings
    ensures r.proceeded && !r.withdrawn ==>
              r.savings == savings && r.current == current + TransferAmount &&
              r.current + r.savings == current + savings + TransferAmount
  {
    if savings >= TransferAmount then
      var w := SavingsWithdraw(savings, TransferAmount);
      TransferOutcome(true, w.accepted, current + TransferAmount, w.balance)
    else
      TransferOutcome(false, false, current, savings)
  }

  /** A concrete instance of the defect: savings at 350 is left at 350, yet the
      current account gains 300. */
  lemma TransferMintsMoney()
    ensures Transfer(0.0, 350.0) == TransferOutcome(true, false, 300.0, 350.0)
  {
  }

  /** The balances after `n` transfers in a row, as `current = current + savings`
      repeated `n` times. */
  function RepeatTransfer(current: real, savings: real, n: nat): (real, real)
    decreases n
  {
    if n == 0 then (current, savings)
    else
      var r := Transfer(current, savings);
      RepeatTransfer(r.current, r.savings, n - 1)
  }

  /** With savings between 300 and 400 the defect repeats without end: every
      transfer credits the current account 300 and the savings account never
      changes. */
  lemma {:induction false} RepeatedTransferMintsMoney(current: real, savings: real, n: nat)
    requires TransferAmount <= savings < TransferAmount + MinBalance
    ensures RepeatTransfer(current, savings, n) == (current + (n as real) * TransferAmount, savings)
    decreases n
  {
    if n > 0 {
      RepeatedTransferMintsMoney(current + TransferAmount, savings, n - 1);
    }
  }
}
