/** Properties of the banking ledger: the order of the guards, what a failure
    leaves behind, what survives any run of deposits and withdrawals, and how a
    transfer moves money (including what it does for non-positive amounts). */
module BankingFacts {
  import opened Results
  import opened Banking

  // ---------------------------------------------------------------------------
  // deposit and withdraw on one account

  /** A deposit is refused exactly for non-positive amounts, and otherwise
      raises both the balance and the running total by the amount. */
  lemma DepositGuard(l: Ledger, amount: int)
    ensures Deposited(l, amount).Ok? <==> amount > 0
    ensures Deposited(l, amount).Err? ==> Deposited(l, amount).error == InvalidArgument
    ensures Deposited(l, amount).Ok? ==>
              Deposited(l, amount).value.balance - l.balance == amount &&
              Deposited(l, amount).value.dailyTotal - l.dailyTotal == amount
  {
  }

  /** Funds are checked first: an overdraft is reported as InsufficientFunds
      whatever the running total is, even when the fraud threshold would also
      be crossed. */
  lemma WithdrawChecksFundsFirst(l: Ledger, amount: int)
    requires amount > l.balance
    ensures Withdrawn(l, amount) == Err(InsufficientFunds)
  {
  }

  /** A covered withdrawal that would take the running total past the
      threshold is reported as FraudDetected. */
  lemma WithdrawChecksFraudSecond(l: Ledger, amount: int)
    requires amount <= l.balance && l.dailyTotal + amount > FraudLimit
    ensures Withdrawn(l, amount) == Err(FraudDetected)
  {
  }

  /** A withdrawal succeeds exactly when it is covered and stays within the
      threshold; it then moves the amount out of the balance and into the
      running total, never overdraws a non-negative balance and leaves the
      running total at or below the threshold. */
  lemma WithdrawSuccess(l: Ledger, amount: int)
    ensures Withdrawn(l, amount).Ok? <==> amount <= l.balance && l.dailyTotal + amount <= FraudLimit
    ensures Withdrawn(l, amount).Ok? ==>
              var l' := Withdrawn(l, amount).value;
              l.balance - l'.balance == amount && l'.dailyTotal - l.dailyTotal == amount &&
              l'.dailyTotal <= FraudLimit && (l.balance >= 0 ==> l'.balance >= 0)
  {
  }

  /** The sign of a withdrawal is never checked: a negative amount passes both
      guards, raises the balance and lowers the running total. */
  lemma WithdrawNegativeAmount(l: Ledger, amount: int)
    requires amount < 0 && 0 <= l.balance && l.dailyTotal <= FraudLimit
    ensures Withdrawn(l, amount).Ok?
    ensures Withdrawn(l, amount).value.balance > l.balance
    ensures Withdrawn(l, amount).value.dailyTotal < l.dailyTotal
  {
  }

  /** Withdrawing what was just deposited is never refused for lack of funds
      on a non-negative balance, and when it succeeds it restores the balance
      while the running total counts the amount twice. */
  lemma DepositThenWithdraw(l: Ledger, amount: int)
    requires 0 <= l.balance && Deposited(l, amount).Ok?
    ensures Withdrawn(Deposited(l, amount).value, amount) != Err(InsufficientFunds)
    ensures Withdrawn(Deposited(l, amount).value, amount).Ok? ==>
              Withdrawn(Deposited(l, amount).value, amount).value ==
                Ledger(l.balance, l.dailyTotal + 2 * amount)
  {
  }

  // ---------------------------------------------------------------------------
  // runs of calls on one account

  /** A call on an account; a call that raises leaves the account as it was. */
  datatype Op = DepositOp(amount: int) | WithdrawOp(amount: int)

  /** What the call does to the ledger, or the error it raises. */
  function Called(l: Ledger, op: Op): Result<Ledger, BankError> {
    match op
    case DepositOp(a) => Deposited(l, a)
    case WithdrawOp(a) => Withdrawn(l, a)
  }

  function Step(l: Ledger, op: Op): Ledger {
    if Called(l, op).Ok? then Called(l, op).value else l
  }

  function Run(l: Ledger, ops: seq<Op>): Ledger
    decreases |ops|
  {
    if ops == [] then l else Run(Step(l, ops[0]), ops[1..])
  }

  /** No run of deposits and withdrawals, whatever their amounts and whichever
      of them raise, makes a non-negative balance negative. */
  lemma {:induction false} RunKeepsBalanceNonNegative(l: Ledger, ops: seq<Op>)
    requires l.balance >= 0
    ensures Run(l, ops).balance >= 0
    decreases |ops|
  {
    if ops != [] {
      RunKeepsBalanceNonNegative(Step(l, ops[0]), ops[1..]);
    }
  }

  /** The amount a call adds to the running total: its own amount when it
      goes through, nothing when it raises. */
  function Accepted(l: Ledger, op: Op): int {
    if Called(l, op).Ok? then op.amount else 0
  }

  /** The sum of the amounts of the calls in a run that went through. */
  function AcceptedSum(l: Ledger, ops: seq<Op>): int
    decreases |ops|
  {
    if ops == [] then 0 else Accepted(l, ops[0]) + AcceptedSum(Step(l, ops[0]), ops[1..])
  }

  /** Over any run, the running total grows by exactly the amounts of the
      calls that went through, deposits and withdrawals alike. */
  lemma {:induction false} RunDailyTotal(l: Ledger, ops: seq<Op>)
    ensures Run(l, ops).dailyTotal == l.dailyTotal + AcceptedSum(l, ops)
    decreases |ops|
  {
    if ops != [] {
      RunDailyTotal(Step(l, ops[0]), ops[1..]);
    }
  }

  /** When every amount is positive the running total never decreases. */
  lemma {:induction false} RunRaisesDailyTotal(l: Ledger, ops: seq<Op>)
    requires forall i :: 0 <= i < |ops| ==> ops[i].amount > 0
    ensures Run(l, ops).dailyTotal >= l.dailyTotal
    decreases |ops|
  {
    if ops != [] {
      RunRaisesDailyTotal(Step(l, ops[0]), ops[1..]);
    }
  }

  /** With negative amounts allowed, a single withdrawal lowers the running
      total, so it is not monotone in general. */
  lemma RunCanLowerDailyTotal()
    ensures Run(Ledger(100, 500), [WithdrawOp(-50)]).dailyTotal < 500
  {
  }

  // ---------------------------------------------------------------------------
  // the sum of all balances

  ghost function TotalBalance(m: map<string, Ledger>): int
    decreases |m|
  {
    if m == map[] then 0
    else
      var no :| no in m;
      assert |m - {no}| < |m| by { assert (m - {no}).Keys == m.Keys - {no}; }
      m[no].balance + TotalBalance(m - {no})
  }

  /** The total can be split at any account, not only the one it happens to
      pick first. */
  lemma {:induction false} TotalBalanceRemove(m: map<string, Ledger>, no: string)
    requires no in m
    ensures TotalBalance(m) == m[no].balance + TotalBalance(m - {no})
    decreases |m|
  {
    var first :| first in m && TotalBalance(m) == m[first].balance + TotalBalance(m - {first});
    if first != no {
      assert (m - {first}).Keys == m.Keys - {first};
      TotalBalanceRemove(m - {first}, no);
      assert (m - {no}).Keys == m.Keys - {no};
      TotalBalanceRemove(m - {no}, first);
      assert m - {first} - {no} == m - {no} - {first};
    }
  }

  /** Replacing one account's ledger changes the total by the change in that
      account's balance. */
  lemma TotalBalanceUpdate(m: map<string, Ledger>, no: string, l: Ledger)
    requires no in m
    ensures TotalBalance(m[no := l]) == TotalBalance(m) - m[no].balance + l.balance
  {
    TotalBalanceRemove(m, no);
    TotalBalanceRemove(m[no := l], no);
    assert m[no := l] - {no} == m - {no};
  }

  // ---------------------------------------------------------------------------
  // transfer

  /** Both numbers are resolved before anything is touched, and a transfer
      whose debit is refused changes nothing. */
  lemma TransferFailsWithoutChange(m: map<string, Ledger>, from: string, to: string, amount: int)
    requires from !in m || to !in m || Withdrawn(m[from], amount).Err?
    ensures Transferred(m, from, to, amount).outcome.Fail?
    ensures Transferred(m, from, to, amount).ledgers == m
    ensures from !in m || to !in m ==>
              Transferred(m, from, to, amount).outcome == Fail(InvalidAccount)
    ensures from in m && to in m ==>
              Transferred(m, from, to, amount).outcome == Fail(Withdrawn(m[from], amount).error)
  {
  }

  /** A transfer succeeds only for a positive amount. */
  lemma TransferNeedsPositiveAmount(m: map<string, Ledger>, from: string, to: string, amount: int)
    requires Transferred(m, from, to, amount).outcome.Pass?
    ensures amount > 0
  {
  }

  /** Between two distinct accounts a positive transfer succeeds exactly when
      the debit does; it then moves the amount from one balance to the other,
      keeps their sum and leaves every other account alone. */
  lemma TransferMovesFunds(m: map<string, Ledger>, from: string, to: string, amount: int)
    requires from in m && to in m && from != to && amount > 0
    ensures Transferred(m, from, to, amount).outcome.Pass? <==> Withdrawn(m[from], amount).Ok?
    ensures Transferred(m, from, to, amount).outcome.Pass? ==>
              var m' := Transferred(m, from, to, amount).ledgers;
              m'.Keys == m.Keys &&
              m'[from].balance == m[from].balance - amount &&
              m'[to].balance == m[to].balance + amount &&
              m'[from].balance + m'[to].balance == m[from].balance + m[to].balance &&
              (forall no :: no in m && no != from && no != to ==> m'[no] == m[no])
  {
  }

  /** A transfer from an account to itself keeps its balance but counts the
      amount twice in its running total. */
  lemma TransferToSelf(m: map<string, Ledger>, no: string, amount: int)
    requires no in m
    requires Transferred(m, no, no, amount).outcome.Pass?
    ensures Transferred(m, no, no, amount).ledgers ==
              m[no := Ledger(m[no].balance, m[no].dailyTotal + 2 * amount)]
  {
  }

  /** A successful transfer keeps the total of all balances in the bank. */
  lemma TransferConservesTotal(m: map<string, Ledger>, from: string, to: string, amount: int)
    requires Transferred(m, from, to, amount).outcome.Pass?
    ensures TotalBalance(Transferred(m, from, to, amount).ledgers) == TotalBalance(m)
  {
    var debited := Withdrawn(m[from], amount).value;
    var m1 := m[from := debited];
    TotalBalanceUpdate(m, from, debited);
    TotalBalanceUpdate(m1, to, Deposited(m1[to], amount).value);
  }

  /** For a non-positive amount the debit can go through and the credit then
      fails: the transfer reports InvalidArgument yet leaves the source
      account changed (for a negative amount, richer and with a lower running
      total), and the bank's total balance moves by the negated amount. */
  lemma TransferPartialWhenNonPositive(m: map<string, Ledger>, from: string, to: string, amount: int)
    requires from in m && to in m && amount <= 0
    requires Withdrawn(m[from], amount).Ok?
    ensures Transferred(m, from, to, amount).outcome == Fail(InvalidArgument)
    ensures Transferred(m, from, to, amount).ledgers ==
              m[from := Ledger(m[from].balance - amount, m[from].dailyTotal + amount)]
    ensures TotalBalance(Transferred(m, from, to, amount).ledgers) == TotalBalance(m) - amount
  {
    TotalBalanceUpdate(m, from, Withdrawn(m[from], amount).value);
  }

  // ---------------------------------------------------------------------------
  // the demonstration script

  /** The script's opening: Alice's savings account S1 (5000) and Bob's
      checking account C1 (2000) are filed, and S1 takes a deposit of 2000 and
      a withdrawal of 3000. */
  method DemoOpening() returns (bank: Bank, s1: Account, c1: Account)
    ensures fresh(bank) && fresh(s1) && fresh(c1)
    ensures bank.Valid() && bank.accounts == map["S1" := s1, "C1" := c1]
    ensures s1.State() == Ledger(4000, 5000) && c1.State() == Ledger(2000, 0)
  {
    bank := new Bank();
    s1 := new Account("S1", "Alice", Savings, 5000);
    c1 := new Account("C1", "Bob", Checking, 2000);
    bank.AddAccount(s1);
    bank.AddAccount(c1);
    var r := s1.Deposit(2000);
    r := s1.Withdraw(3000);
  }

  /** The rest of the script: 1500 moves from S1 to C1, then a withdrawal of
      9000 from S1 meets a balance of 2500 and is refused for insufficient
      funds (checked before the fraud threshold), which is not the error the
      script catches. */
  method BankDemo() returns (last: Outcome<BankError>, s1Balance: int, c1Balance: int)
    ensures last == Fail(InsufficientFunds)
    ensures s1Balance == 2500 && c1Balance == 3500
  {
    var bank, s1, c1 := DemoOpening();
    var r := bank.Transfer("S1", "C1", 1500);
    assert r == Pass;
    last := s1.Withdraw(9000);
    s1Balance, c1Balance := s1.balance, c1.balance;
  }
}
