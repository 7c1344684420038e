# Banking ledger and hospital registry in Dafny

This project models two small in-memory systems written in Python and proves
properties of the models.

**Banking ledger** (`Banking.py`). An account holds a balance and a running
total of every amount deposited into it or withdrawn from it. A deposit is
refused for a non-positive amount. A withdrawal is refused when it is not
covered by the balance, and otherwise when it would take the running total past
10000 (the fraud threshold). A bank files accounts by number and moves money
between them: it resolves both numbers, withdraws from the source and then
deposits to the destination. Nothing rolls back the withdrawal if the deposit
fails.

**Hospital registry** (`Hospital.py`). Patients and doctors are registered by
id. Every patient has a bill, a list of `(description, cost)` line items that
grows only by appends; re-registering the patient empties it. Admitting a patient flags them and charges 5000. Scheduling books the
patient with the first doctor, in registration order, who has the requested
specialization and is free. The booking takes the next appointment number
(`"A1"`, `"A2"`, …), makes the doctor unavailable and charges 1000. A bill's
total is the sum of its line items.

Files:

- `Results.dfy`: `Result`, `Outcome` and `Option`. These are the values the
  operations return in place of the exceptions the Python code raises.
- `Decimal.dfy`: decimal rendering of naturals, which appointment ids are made
  of, with its inverse. The round trip proves that different numbers give
  different ids.
- `Banking.dfy`: the ledger of one account as a value (`Ledger`). It has three
  value-level specifications: `Deposited`, `Withdrawn` and `Transferred`. The
  classes `Account` (fields updated in place) and `Bank` (a map from number to
  account) have methods proved against those specifications.
- `BankingFacts.dfy`: the guard order and failure behaviour of
  deposit and withdraw. It also proves an invariant over any run of calls, that
  a transfer conserves the total balance, what a transfer does for
  non-positive amounts, and the demonstration script.
- `Hospital.dfy`: `Patient` and `Doctor` as classes with mutable flags and
  `Hospital` as a class with its dictionaries, the doctors' registration
  order and the appointment counter. `Valid()` is the registry's invariant: everyone
  is filed under their own id, exactly the registered patients have a bill, the
  order lists each doctor once, and the appointments are exactly `A1` to
  `A(counter-1)`.
- `HospitalFacts.dfy`: bill totals under appends, the count of issued ids,
  and the demonstration script.

## Model

| member | source | states |
|---|---|---|
| `Banking.AccountType` | Banking.py:23-27 | savings accounts display "Savings" and checking accounts "Checking", and no other name occurs |
| `Banking.Account.constructor` | Banking.py:8-10 | a new account carries its number, owner and kind, holds the opening balance (0 when none is given) and has a running total of 0 |
| `Banking.Account.Deposit` | Banking.py:13-16 | a refused deposit returns its error and leaves balance and running total unchanged; an accepted one sets them to the `Deposited` ledger |
| `Banking.Account.Withdraw` | Banking.py:17-21 | a refused withdrawal returns its error and leaves the account unchanged; an accepted one sets it to the `Withdrawn` ledger |
| `Banking.Bank.constructor` | Banking.py:34 | a new bank has no accounts |
| `Banking.Bank.AddAccount` | Banking.py:35 | the account is filed under its own number and silently replaces any account already there; the other ledgers are unchanged |
| `Banking.Bank.GetAccount` | Banking.py:36-38 | lookup fails with InvalidAccount exactly for unregistered numbers and otherwise returns the filed account object itself |
| `Banking.Bank.Transfer` | Banking.py:39-43 | outcome and all ledgers afterwards are those of `Transferred`: resolve both numbers, debit the source, then credit the destination as it stands after the debit |
| `BankingFacts.DepositGuard` | Banking.py:13-16 | a deposit is refused (InvalidArgument) exactly when the amount is non-positive; otherwise balance and running total both rise by the amount |
| `BankingFacts.WithdrawChecksFundsFirst` | Banking.py:18-19 | an uncovered withdrawal is InsufficientFunds whatever the running total, even when the fraud threshold would also be crossed |
| `BankingFacts.WithdrawChecksFraudSecond` | Banking.py:19 | a covered withdrawal that would take the running total past 10000 is FraudDetected |
| `BankingFacts.WithdrawSuccess` | Banking.py:17-21 | a withdrawal succeeds iff it is covered and within the threshold; it then lowers the balance and raises the running total by the amount, keeps a non-negative balance non-negative and leaves the running total at most 10000 |
| `BankingFacts.WithdrawNegativeAmount` | Banking.py:17-21 | the sign is never checked: a negative amount on a non-negative balance within the threshold succeeds, raising the balance and lowering the running total |
| `BankingFacts.DepositThenWithdraw` | Banking.py:13-21 | withdrawing what was just deposited is never refused for funds on a non-negative balance; when it succeeds the balance is restored and the running total has grown by twice the amount |
| `BankingFacts.RunKeepsBalanceNonNegative` | Banking.py:13-21 | no sequence of deposits and withdrawals, with any amounts and whichever of them are refused, makes a non-negative balance negative |
| `BankingFacts.RunDailyTotal` | Banking.py:13-21 | over any run of calls, the running total grows by exactly the sum of the amounts of the calls that went through |
| `BankingFacts.RunRaisesDailyTotal` | Banking.py:13-21 | when every amount is positive, a run of calls never lowers the running total |
| `BankingFacts.RunCanLowerDailyTotal` | Banking.py:17-21 | with a negative withdrawal the running total does go down, so it is not monotone in general |
| `BankingFacts.TransferFailsWithoutChange` | Banking.py:39-42 | an unknown number on either side gives InvalidAccount, and a refused debit gives its error; in both cases no ledger changes |
| `BankingFacts.TransferNeedsPositiveAmount` | Banking.py:39-43 | a transfer that succeeds had a positive amount |
| `BankingFacts.TransferMovesFunds` | Banking.py:39-43 | between distinct accounts a positive transfer succeeds iff the debit does. It then debits the source and credits the destination by the amount, keeps their combined balance and leaves every other account alone |
| `BankingFacts.TransferToSelf` | Banking.py:39-43 | a successful transfer from an account to itself keeps its balance and adds twice the amount to its running total |
| `BankingFacts.TransferConservesTotal` | Banking.py:39-43 | a successful transfer keeps the sum of all balances in the bank |
| `BankingFacts.TransferPartialWhenNonPositive` | Banking.py:39-43 | for a non-positive amount whose debit goes through, the credit is refused. The transfer reports InvalidArgument, the debit stays applied to the source, and the bank's total moves by minus the amount |
| `BankingFacts.DemoOpening` | Banking.py:46-52 | the script's two accounts after its deposit and withdrawal: S1 at 4000 with running total 5000, C1 at 2000 |
| `BankingFacts.BankDemo` | Banking.py:53-56 | after the 1500 transfer S1 holds 2500 and C1 3500. The final withdrawal of 9000 is refused with InsufficientFunds, not the FraudDetected the script catches |
| `Decimal.ParseFormat` | Hospital.py:30 | parsing the decimal rendering of a number gives the number back |
| `Decimal.FormatInjective` | Hospital.py:30 | different numbers render as different strings |
| `HospitalAdmin.Patient.constructor` | Hospital.py:14-17 | a new patient carries its id and is not admitted |
| `HospitalAdmin.Doctor.constructor` | Hospital.py:20-23 | a new doctor carries its id and specialization and is available |
| `HospitalAdmin.AppointmentId` | Hospital.py:30 | an appointment id is "A" followed by the decimal numeral of the counter: the tail is all digits and parses back to the counter |
| `HospitalAdmin.AppointmentIdInjective` | Hospital.py:28-30 | different counter values give different appointment ids |
| `HospitalAdmin.IssueNext` | Hospital.py:28-30 | the id taken at the current counter was not issued before, and advancing the counter adds exactly that id to the issued ones |
| `HospitalAdmin.RegistrationOrderFile` | Hospital.py:52 | filing a doctor keeps an already registered id at its position and appends a new id at the end, so the order still lists each doctor once |
| `HospitalAdmin.Hospital.constructor` | Hospital.py:45-46 | a new registry is empty and its counter starts at 1 |
| `HospitalAdmin.Hospital.Register` | Hospital.py:47-52 | a patient is filed under its id with an empty bill, wiping any earlier bill. Any other person is filed as a doctor under its id, replacing silently and keeping the registration position. Appointments and counter are unchanged |
| `HospitalAdmin.Hospital.Admit` | Hospital.py:53-56 | an unregistered id fails with InvalidPatientId and changes nothing. Otherwise the given patient object is flagged admitted and exactly ("Admission", 5000) is appended to the bill filed under its id |
| `HospitalAdmin.Hospital.FirstFitFrom` | Hospital.py:60-61 | the result is the first position at or after `i` in registration order whose doctor has the specialization and is available, with none before it; no result means no such doctor remains |
| `HospitalAdmin.Hospital.Schedule` | Hospital.py:58-68 | an unknown patient gives InvalidPatientId; with no fitting doctor it gives NoDoctorAvailable, and neither failure changes any flag, bill, appointment or the counter. Otherwise it books the first fit: the id is "A" + counter (never issued before), the counter goes up by 1, the appointment is stored, the chosen doctor alone becomes unavailable, and ("Appointment", 1000) is appended to the bill |
| `HospitalAdmin.Hospital.Book` | Hospital.py:62-65 | booking at a given position: new appointment under the next id, that doctor unavailable and no other doctor touched, the fee appended to the patient's bill |
| `HospitalAdmin.Hospital.Bill` | Hospital.py:69-73 | fails with InvalidPatientId exactly for ids with no bill; otherwise returns the sum of the line-item costs, reading the bills without changing them |
| `HospitalFacts.TotalAppend` | Hospital.py:71 | appending a line item raises a bill's total by exactly its cost |
| `HospitalFacts.IssuedIdsCount` | Hospital.py:28-30 | a registry whose counter reads n has issued n - 1 pairwise distinct ids |
| `HospitalFacts.DemoRegistry` | Hospital.py:77-79 | after the script's registrations the registry holds doctor D1 (Cardiology, available) and patient P1 with an empty bill |
| `HospitalFacts.HospitalDemo` | Hospital.py:80-84 | admitting P1 and booking cardiology gives appointment A1 with D1, and the bill totals 6000 |
| `HospitalFacts.SecondBookingScenario` | Hospital.py:58-68 | after the only cardiologist is booked, a second cardiology request fails with NoDoctorAvailable and the bill stays at 1000 |

## Behaviour worth knowing

- The banking script's last withdrawal (Banking.py:54) asks for 9000 against a
  balance of 2500. It raises InsufficientFunds, because funds are checked
  before the fraud threshold (Banking.py:18). The script catches only
  FraudDetected, so it ends with an uncaught error. `BankingFacts.BankDemo`
  returns InsufficientFunds.
- An opening balance can be negative: the constructor stores whatever it is
  given (Banking.py:8-9). Calls never make a non-negative balance negative
  (`RunKeepsBalanceNonNegative`).
- The running total can go down: `withdraw` never checks the sign of its
  amount (Banking.py:17-21), so a negative withdrawal lowers it.
- A transfer of 0 or less is left half done (Banking.py:42-43): the withdrawal
  passes and the deposit raises, so the source account stays changed
  (`TransferPartialWhenNonPositive`).

## Left out

- Console output and `__str__` (Hospital.py:12, 32, 57, 66, 72; Banking.py:55-56):
  display only. `Bill` returns the total without the printed listing.
- The abstract base classes `BankOperations`, `HospitalOperations`,
  `Account` and `Person`, with their abstract methods. They add no behaviour.
  Account kind is a two-constructor datatype. `register` dispatches on a `Person`
  datatype whose cases are a patient or a doctor.
- A person's `name` and `age` and a patient's `ailment`: no rule reads them.
  The account owner is kept.
- `datetime`: the appointment time is a plain record that is stored and never
  inspected.
- Float amounts and costs: the model uses unbounded integers, as every call
  site does.
- The appointment counter is a class attribute shared by every `Hospital` in
  the process (Hospital.py:28-30). The model keeps it as a field of one
  registry, so ids are distinct within one registry. Across several registries
  the code's ids would also be distinct, and the model does not capture this.
- Ids and account numbers are mutable attributes in Python but are constants
  in the model. Nothing in the code changes them, and the registry invariants
  (filed under their own id) rely on it.
- `register` in the code accepts any object and files non-patients as
  doctors. The model accepts only patients and doctors.
- `admit` in the code accepts any object with an `id` (Hospital.py:53-56), for
  example a doctor whose id is also a patient's. It sets an `admitted`
  attribute on that object and charges the patient's bill. The model's `Admit`
  takes only a `Patient`.
- Exceptions become returned errors, and the scripts' `try`/`except` handling is
  not modelled. The scripts are modelled only as scenario methods.
- The single scheduling loop of the code is written as two methods. The search is the loop over the doctors in registration order
  (Hospital.py:60-61); `Book` performs the booking (Hospital.py:62-65). Together
  they behave as the single loop that books at the first match.
