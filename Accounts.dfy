/** The account objects of the program. One class stands for the base class
    and both derived classes: the `kind` field records which class an object
    was built as and carries the state that class adds, and `Withdraw`
    dispatches on it as the virtual `withdraw` does. The account number, the
    holder and the kind never change after construction, so they are `const`;
    only `balance` is updated in place. */
module Accounts {
  import opened Ledger

  class Account {
    const number: string
    const holder: string
    const kind: Kind
    var balance: real

    /** A generic account. */
    constructor (number: string, holder: string, initialBalance: real)
      ensures this.number == number && this.holder == holder
      ensures kind == Generic && balance == initialBalance
    {
      this.number := number;
      this.holder := holder;
      kind := Generic;
      balance := initialBalance;
    }

    /** A savings account; the initial balance may lie below the minimum
        balance, which only withdrawals enforce. */
    constructor SavingsAccount(number: string, holder: string, initialBalance: real, rate: real)
      ensures this.number == number && this.holder == holder
      ensures kind == Savings(rate) && balance == initialBalance
    {
      this.number := number;
      this.holder := holder;
      kind := Savings(rate);
      balance := initialBalance;
    }

    /** A current account with the given overdraft limit. */
    constructor CurrentAccount(number: string, holder: string, initialBalance: real, limit: real)
      ensures this.number == number && this.holder == holder
      ensures kind == Current(limit) && balance == initialBalance
    {
      this.number := number;
      this.holder := holder;
      kind := Current(limit);
      balance := initialBalance;
    }

    /** The current balance; reading it changes nothing. */
    function GetBalance(): (b: real)
      reads this
      ensures b == balance
    {
      balance
    }

    /** The label of the class the object was built as, dispatched like the
        virtual `getType`. */
    function GetType(): (name: string)
      ensures name == TypeName(kind)
      ensures name == "Savings Account" <==> kind.Savings?
      ensures name == "Current Account" <==> kind.Current?
    {
      TypeName(kind)
    }

    /** Adds the amount, whatever its sign or size; never refused. */
    method Deposit(amount: real)
      modifies this
      ensures balance == Apply(kind, old(balance), Op.Deposit(amount))
      ensures balance == old(balance) + amount
    {
      balance := balance + amount;
    }

    /** Takes the amount out when the rule of this account's class allows it,
        and reports whether it did; a refused withdrawal changes nothing. */
    method Withdraw(amount: real) returns (accepted: bool)
      modifies this
      ensures Outcome(accepted, balance) == Ledger.Withdraw(kind, old(balance), amount)
      ensures balance == Apply(kind, old(balance), Withdrawal(amount))
      ensures accepted <==> old(balance) - amount >= Floor(kind)
      ensures accepted ==> balance >= Floor(kind)
    {
      match kind {
        case Generic =>
          accepted := amount <= balance;
        case Savings(_) =>
          accepted := balance - amount >= MinBalance;
        case Current(limit) =>
          accepted := balance - amount >= -limit;
      }
      if accepted {
        balance := balance - amount;
      }
    }
  }

  /** Two accounts report the same label exactly when they were built as the
      same class. */
  lemma GetTypeIdentifiesClass(a: Account, b: Account)
    ensures a.GetType() == b.GetType() <==>
            (a.kind.Generic? && b.kind.Generic?) || (a.kind.Savings? && b.kind.Savings?) ||
            (a.kind.Current? && b.kind.Current?)
  {
  }

  /** Moves the fixed transfer amount from a savings account to a current
      account. Its own guard only asks that the savings balance covers the
      amount; the savings withdrawal then applies its minimum-balance rule,
      and the current account is credited in either case. Both objects are
      updated in place; `proceeded` is false where the original prints that
      the transfer failed, `withdrawn` false where the savings withdrawal
      prints its refusal. */
  method Transfer(current: Account, savings: Account) returns (proceeded: bool, withdrawn: bool)
    requires current.kind.Current? && savings.kind.Savings?
    modifies current, savings
    ensures TransferOutcome(proceeded, withdrawn, current.balance, savings.balance) ==
            Ledger.Transfer(old(current.balance), old(savings.balance))
  {
    if savings.GetBalance() >= TransferAmount {
      withdrawn := savings.Withdraw(TransferAmount);
      current.Deposit(TransferAmount);
      proceeded := true;
    } else {
      proceeded, withdrawn := false, false;
    }
  }
}
