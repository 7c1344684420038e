/** The banking ledger: accounts holding a balance and a running total of
    everything deposited into or withdrawn from them, and a bank that owns the
    accounts by number and moves money between them. */
module Banking {
  import opened Results

  /** The exceptions the ledger raises (ValueError for a non-positive deposit). */
  datatype BankError = InvalidArgument | InsufficientFunds | FraudDetected | InvalidAccount

  /** The two account variants; they differ only in the name they display. */
  datatype Kind = Savings | Checking

  function AccountType(kind: Kind): (name: string)
    ensures kind.Savings? <==> name == "Savings"
    ensures kind.Checking? <==> name == "Checking"
  {
    match kind
    case Savings => "Savings"
    case Checking => "Checking"
  }

  /** Threshold on an account's running total above which a withdrawal is refused. */
  const FraudLimit: int := 10000

  /** The mutable part of an account, as a value. */
  datatype Ledger = Ledger(balance: int, dailyTotal: int)

  /** What `deposit` does to an account's ledger, or the error it raises. */
  function Deposited(l: Ledger, amount: int): Result<Ledger, BankError> {
    if amount <= 0 then Err(InvalidArgument)
    else Ok(Ledger(l.balance + amount, l.dailyTotal + amount))
  }

  /** What `withdraw` does to an account's ledger, or the error it raises:
      funds are checked before the fraud threshold, and the sign of `amount`
      is not checked at all. */
  function Withdrawn(l: Ledger, amount: int): Result<Ledger, BankError> {
    if amount > l.balance then Err(InsufficientFunds)
    else if l.dailyTotal + amount > FraudLimit then Err(FraudDetected)
    else Ok(Ledger(l.balance - amount, l.dailyTotal + amount))
  }

  /** The outcome of a transfer and the ledgers of all accounts afterwards;
      a transfer that fails half-way leaves the first half done. */
  datatype Effect = Effect(outcome: Outcome<BankError>, ledgers: map<string, Ledger>)

  /** What `transfer` does to the ledgers of a bank's accounts: both numbers are
      resolved first, then the source is debited, then the destination (read
      after the debit, so a transfer to the same account sees it) is credited. */
  function Transferred(m: map<string, Ledger>, from: string, to: string, amount: int): Effect {
    if from !in m || to !in m then Effect(Fail(InvalidAccount), m)
    else match Withdrawn(m[from], amount)
      case Err(e) => Effect(Fail(e), m)
      case Ok(debited) =>
        var m1 := m[from := debited];
        match Deposited(m1[to], amount)
        case Err(e) => Effect(Fail(e), m1)
        case Ok(credited) => Effect(Pass, m1[to := credited])
  }

  class Account {
    const accNo: string
    const owner: string
    const kind: Kind
    var balance: int
    var dailyTotal: int

    function State(): Ledger
      reads this
    {
      Ledger(balance, dailyTotal)
    }

    /** A new account holds the opening balance and has moved nothing yet. */
    constructor (accNo: string, owner: string, kind: Kind, balance: int := 0)
      ensures this.accNo == accNo && this.owner == owner && this.kind == kind
      ensures State() == Ledger(balance, 0)
    {
      this.accNo, this.owner, this.kind := accNo, owner, kind;
      this.balance := balance;
      this.dailyTotal := 0;
    }

    method Deposit(amount: int) returns (r: Outcome<BankError>)
      modifies this
      ensures Deposited(old(State()), amount).Err? ==>
                r == Fail(Deposited(old(State()), amount).error) && State() == old(State())
      ensures Deposited(old(State()), amount).Ok? ==>
                r == Pass && State() == Deposited(old(State()), amount).value
    {
      if amount <= 0 {
        return Fail(InvalidArgument);
      }
      balance := balance + amount;
      dailyTotal := dailyTotal + amount;
      r := Pass;
    }

    method Withdraw(amount: int) returns (r: Outcome<BankError>)
      modifies this
      ensures Withdrawn(old(State()), amount).Err? ==>
                r == Fail(Withdrawn(old(State()), amount).error) && State() == old(State())
      ensures Withdrawn(old(State()), amount).Ok? ==>
                r == Pass && State() == Withdrawn(old(State()), amount).value
    {
      if amount > balance {
        return Fail(InsufficientFunds);
      }
      if dailyTotal + amount > FraudLimit {
        return Fail(FraudDetected);
      }
      balance := balance - amount;
      dailyTotal := dailyTotal + amount;
      r := Pass;
    }
  }

  class Bank {
    var accounts: map<string, Account>

    /** Every account is filed under its own number, so distinct numbers are
        distinct accounts. */
    ghost predicate Valid()
      reads this
    {
      forall no :: no in accounts ==> accounts[no].accNo == no
    }

    /** The ledgers of all accounts, by number. */
    ghost function Ledgers(): map<string, Ledger>
      reads this, accounts.Values
    {
      map no | no in accounts :: accounts[no].State()
    }

    constructor ()
      ensures Valid() && accounts == map[]
    {
      accounts := map[];
    }

    /** Files `acc` under its number, replacing any account already there. */
    method AddAccount(acc: Account)
      requires Valid()
      modifies this
      ensures Valid()
      ensures accounts == old(accounts)[acc.accNo := acc]
      ensures Ledgers() == old(Ledgers())[acc.accNo := acc.State()]
    {
      accounts := accounts[acc.accNo := acc];
    }

    function GetAccount(accNo: string): (r: Result<Account, BankError>)
      reads this
      ensures r.Ok? <==> accNo in accounts
      ensures r.Ok? ==> r.value == accounts[accNo]
      ensures r.Err? ==> r.error == InvalidAccount
    {
      if accNo !in accounts then Err(InvalidAccount) else Ok(accounts[accNo])
    }

    method Transfer(from: string, to: string, amount: int) returns (r: Outcome<BankError>)
      requires Valid()
      modifies accounts.Values
      ensures Valid()
      ensures r == Transferred(old(Ledgers()), from, to, amount).outcome
      ensures Ledgers() == Transferred(old(Ledgers()), from, to, amount).ledgers
    {
      ghost var m := Ledgers();
      var source := GetAccount(from);
      if source.Err? {
        return Fail(source.error);
      }
      var target := GetAccount(to);
      if target.Err? {
        return Fail(target.error);
      }
      var f, t := source.value, target.value;
      r := f.Withdraw(amount);
      if r.Fail? {
        assert Ledgers() == m;
        return;
      }
      ghost var m1 := Ledgers();
      assert m1 == m[from := f.State()];
      r := t.Deposit(amount);
      assert Ledgers() == m1[to := t.State()];
    }
  }
}
