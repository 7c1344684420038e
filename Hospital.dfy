/** The hospital registry: patients and doctors registered by id, per-patient
    bills that grow only by appends (re-registering a patient empties its
    bill), and appointments that pair a patient with the
    first free doctor of the requested specialization. */
module HospitalAdmin {
  import opened Results
  import Decimal

  datatype HospitalError = InvalidPatientId | NoDoctorAvailable

  /** One line of a patient's bill. */
  datatype LineItem = LineItem(description: string, cost: int)

  const AdmissionFee: int := 5000
  const AppointmentFee: int := 1000

  /** When an appointment takes place; stored, never inspected. */
  datatype DateTime = DateTime(year: int, month: int, day: int, hour: int)

  class Patient {
    const id: string
    var admitted: bool

    constructor (id: string)
      ensures this.id == id && !admitted
    {
      this.id := id;
      admitted := false;
    }
  }

  class Doctor {
    const id: string
    const specialization: string
    var available: bool

    constructor (id: string, specialization: string)
      ensures this.id == id && this.specialization == specialization && available
    {
      this.id, this.specialization := id, specialization;
      available := true;
    }
  }

  /** What `register` dispatches on: a patient, or anyone else (a doctor). */
  datatype Person = PatientRole(patient: Patient) | DoctorRole(doctor: Doctor)

  datatype Appointment = Appointment(id: string, patient: Patient, doctor: Doctor, when: DateTime)

  /** The id of the appointment created when the counter reads `n`. */
  function AppointmentId(n: nat): (id: string)
    ensures |id| >= 2 && id[0] == 'A'
    ensures Decimal.AllDigits(id[1..]) && Decimal.Parse(id[1..]) == n
  {
    Decimal.ParseFormat(n);
    var id := "A" + Decimal.Format(n);
    assert id[1..] == Decimal.Format(n);
    id
  }

  /** The ids handed out by a registry whose counter has reached `counter`. */
  ghost function IssuedIds(counter: nat): set<string> {
    set n: nat | 1 <= n < counter :: AppointmentId(n)
  }

  /** The sum of the costs on a bill. */
  function Total(items: seq<LineItem>): int {
    if items == [] then 0 else items[0].cost + Total(items[1..])
  }

  predicate Fits(d: Doctor, spec: string)
    reads d
  {
    d.specialization == spec && d.available
  }

  /** Everyone is filed under their own id, so distinct ids are distinct
      objects, and exactly the registered patients have a bill. */
  ghost predicate PeopleFiled(patients: map<string, Patient>, doctors: map<string, Doctor>,
                              bills: map<string, seq<LineItem>>)
  {
    (forall id :: id in patients ==> patients[id].id == id) &&
    (forall id :: id in doctors ==> doctors[id].id == id) &&
    bills.Keys == patients.Keys
  }

  /** `order` lists every registered doctor id exactly once. */
  ghost predicate RegistrationOrder(order: seq<string>, doctors: map<string, Doctor>)
  {
    (forall i :: 0 <= i < |order| ==> order[i] in doctors) &&
    (forall id :: id in doctors ==> id in order) &&
    (forall i, j :: 0 <= i < j < |order| ==> order[i] != order[j])
  }

  /** Filing a doctor keeps an existing id in place and appends a new one. */
  lemma RegistrationOrderFile(order: seq<string>, doctors: map<string, Doctor>, d: Doctor)
    requires RegistrationOrder(order, doctors)
    ensures RegistrationOrder(if d.id in doctors then order else order + [d.id], doctors[d.id := d])
  {
  }

  /** The appointments are exactly those numbered 1 to `counter` - 1, each
      filed under its own id. */
  ghost predicate AppointmentsIssued(appointments: map<string, Appointment>, counter: nat)
  {
    1 <= counter &&
    appointments.Keys == IssuedIds(counter) &&
    (forall id :: id in appointments ==> appointments[id].id == id)
  }

  class Hospital {
    var patients: map<string, Patient>
    var doctors: map<string, Doctor>
    /** The doctor ids in the order they were first registered (the iteration
        order of the doctors dictionary; overwriting keeps the position). */
    var doctorOrder: seq<string>
    var appointments: map<string, Appointment>
    var bills: map<string, seq<LineItem>>
    /** The number the next appointment takes. */
    var counter: nat

    ghost predicate Valid()
      reads this
    {
      PeopleFiled(patients, doctors, bills) &&
      RegistrationOrder(doctorOrder, doctors) &&
      AppointmentsIssued(appointments, counter)
    }

    /** The position in registration order of the first doctor at or after
        position `i` who has specialization `spec` and is free. */
    function FirstFitFrom(i: nat, spec: string): (k: Option<nat>)
      requires Valid()
      reads this, doctors.Values
      ensures k.Some? ==>
                i <= k.value < |doctorOrder| && Fits(doctors[doctorOrder[k.value]], spec) &&
                forall j :: i <= j < k.value ==> !Fits(doctors[doctorOrder[j]], spec)
      ensures k.None? ==> forall j :: i <= j < |doctorOrder| ==> !Fits(doctors[doctorOrder[j]], spec)
      decreases |doctorOrder| - i
    {
      if i >= |doctorOrder| then None
      else if Fits(doctors[doctorOrder[i]], spec) then Some(i)
      else FirstFitFrom(i + 1, spec)
    }

    constructor ()
      ensures Valid()
      ensures patients == map[] && doctors == map[] && doctorOrder == []
      ensures appointments == map[] && bills == map[] && counter == 1
    {
      patients, doctors, doctorOrder := map[], map[], [];
      appointments, bills := map[], map[];
      counter := 1;
    }

    /** Files a patient (with a fresh, empty bill) or a doctor under its id,
        silently replacing whoever was there. */
    method Register(person: Person)
      requires Valid()
      modifies this
      ensures Valid()
      ensures appointments == old(appointments) && counter == old(counter)
      ensures person.PatientRole? ==>
                patients == old(patients)[person.patient.id := person.patient] &&
                bills == old(bills)[person.patient.id := []] &&
                doctors == old(doctors) && doctorOrder == old(doctorOrder)
      ensures person.DoctorRole? ==>
                doctors == old(doctors)[person.doctor.id := person.doctor] &&
                doctorOrder == (if person.doctor.id in old(doctors) then old(doctorOrder)
                                else old(doctorOrder) + [person.doctor.id]) &&
                patients == old(patients) && bills == old(bills)
    {
      match person
      case PatientRole(p) =>
        patients := patients[p.id := p];
        bills := bills[p.id := []];
      case DoctorRole(d) =>
        RegistrationOrderFile(doctorOrder, doctors, d);
        if d.id !in doctors {
          doctorOrder := doctorOrder + [d.id];
        }
        doctors := doctors[d.id := d];
    }

    /** Marks the given patient object admitted and charges the admission fee
        to the bill filed under its id; an id that is not registered is
        refused and nothing changes. */
    method Admit(p: Patient) returns (r: Outcome<HospitalError>)
      requires Valid()
      modifies this, p
      ensures Valid()
      ensures patients == old(patients) && doctors == old(doctors) && doctorOrder == old(doctorOrder)
      ensures appointments == old(appointments) && counter == old(counter)
      ensures p.id !in old(patients) ==>
                r == Fail(InvalidPatientId) && bills == old(bills) && p.admitted == old(p.admitted)
      ensures p.id in old(patients) ==>
                r == Pass && p.admitted &&
                bills == old(bills)[p.id := old(bills)[p.id] + [LineItem("Admission", AdmissionFee)]]
    {
      if p.id !in patients {
        return Fail(InvalidPatientId);
      }
      p.admitted := true;
      bills := bills[p.id := bills[p.id] + [LineItem("Admission", AdmissionFee)]];
      r := Pass;
    }

    /** Books the patient with the first doctor, in registration order, who has
        the requested specialization and is free: the appointment takes the
        next number, the doctor becomes unavailable and the appointment fee is
        charged. */
    method Schedule(pid: string, spec: string, when: DateTime) returns (r: Result<Appointment, HospitalError>)
      requires Valid()
      modifies this, doctors.Values
      ensures Valid()
      ensures patients == old(patients) && doctors == old(doctors) && doctorOrder == old(doctorOrder)
      ensures pid !in old(patients) ==> r == Err(InvalidPatientId)
      ensures pid in old(patients) && old(FirstFitFrom(0, spec)).None? ==> r == Err(NoDoctorAvailable)
      ensures r.Ok? <==> pid in old(patients) && old(FirstFitFrom(0, spec)).Some?
      ensures r.Err? ==>
                appointments == old(appointments) && bills == old(bills) && counter == old(counter) &&
                forall id :: id in doctors ==> doctors[id].available == old(doctors[id].available)
      ensures r.Ok? ==>
                var chosen := doctors[doctorOrder[old(FirstFitFrom(0, spec)).value]];
                r.value == Appointment(AppointmentId(old(counter)), patients[pid], chosen, when) &&
                !chosen.available &&
                forall id :: id in doctors && id != chosen.id ==> doctors[id].available == old(doctors[id].available)
      ensures r.Ok? ==>
                r.value.id !in old(appointments) &&
                appointments == old(appointments)[r.value.id := r.value] &&
                counter == old(counter) + 1 &&
                bills == old(bills)[pid := old(bills)[pid] + [LineItem("Appointment", AppointmentFee)]]
    {
      if pid !in patients {
        return Err(InvalidPatientId);
      }
      ghost var fit := FirstFitFrom(0, spec);
      var i := 0;
      while i < |doctorOrder|
        invariant 0 <= i <= |doctorOrder|
        invariant FirstFitFrom(i, spec) == fit
      {
        var d := doctors[doctorOrder[i]];
        if d.specialization == spec && d.available {
          break;
        }
        i := i + 1;
      }
      if i == |doctorOrder| {
        return Err(NoDoctorAvailable);
      }
      assert fit == Some(i);
      r := Book(pid, i, when);
    }

    /** The effect of a match at position `i`: a new appointment under the
        next number, the doctor marked unavailable, the fee charged. */
    method Book(pid: string, i: nat, when: DateTime) returns (r: Result<Appointment, HospitalError>)
      requires Valid() && pid in patients && i < |doctorOrder|
      modifies this, doctors[doctorOrder[i]]
      ensures Valid()
      ensures patients == old(patients) && doctors == old(doctors) && doctorOrder == old(doctorOrder)
      ensures r == Ok(Appointment(AppointmentId(old(counter)), patients[pid], doctors[doctorOrder[i]], when))
      ensures !doctors[doctorOrder[i]].available
      ensures forall id :: id in doctors && id != doctorOrder[i] ==> doctors[id].available == old(doctors[id].available)
      ensures r.value.id !in old(appointments)
      ensures appointments == old(appointments)[r.value.id := r.value]
      ensures counter == old(counter) + 1
      ensures bills == old(bills)[pid := old(bills)[pid] + [LineItem("Appointment", AppointmentFee)]]
    {
      var d := doctors[doctorOrder[i]];
      IssueNext(counter);
      var appt := Appointment(AppointmentId(counter), patients[pid], d, when);
      counter := counter + 1;
      appointments := appointments[appt.id := appt];
      d.available := false;
      bills := bills[pid := bills[pid] + [LineItem("Appointment", AppointmentFee)]];
      r := Ok(appt);
    }

    /** The sum of the patient's bill; an id with no bill is refused. */
    function Bill(pid: string): (r: Result<int, HospitalError>)
      reads this
      ensures r.Err? <==> pid !in bills
      ensures r.Err? ==> r.error == InvalidPatientId
      ensures r.Ok? ==> r.value == Total(bills[pid])
    {
      if pid !in bills then Err(InvalidPatientId) else Ok(Total(bills[pid]))
    }
  }

  /** Different counter values give different appointment ids. */
  lemma AppointmentIdInjective(m: nat, n: nat)
    requires m != n
    ensures AppointmentId(m) != AppointmentId(n)
  {
    Decimal.FormatInjective(m, n);
    assert AppointmentId(m)[1..] == Decimal.Format(m);
    assert AppointmentId(n)[1..] == Decimal.Format(n);
  }

  /** Taking the next number issues an id not issued before. */
  lemma IssueNext(counter: nat)
    requires 1 <= counter
    ensures AppointmentId(counter) !in IssuedIds(counter)
    ensures IssuedIds(counter + 1) == IssuedIds(counter) + {AppointmentId(counter)}
  {
    forall n: nat | 1 <= n < counter
      ensures AppointmentId(n) != AppointmentId(counter)
    {
      AppointmentIdInjective(n, counter);
    }
    assert IssuedIds(counter + 1) == IssuedIds(counter) + {AppointmentId(counter)};
  }
}
