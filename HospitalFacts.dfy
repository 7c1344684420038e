/** Properties of the hospital registry: how bills add up, that appointment
    ids never repeat, and the demonstration script's run. */
module HospitalFacts {
  import opened Results
  import opened HospitalAdmin

  /** Appending a line item raises a bill's total by exactly its cost. */
  lemma {:induction false} TotalAppend(items: seq<LineItem>, item: LineItem)
    ensures Total(items + [item]) == Total(items) + item.cost
  {
    if items != [] {
      assert (items + [item])[1..] == items[1..] + [item];
      TotalAppend(items[1..], item);
    }
  }

  /** A registry whose counter reads `counter` has issued `counter` - 1
      pairwise distinct appointment ids. */
  lemma {:induction false} IssuedIdsCount(counter: nat)
    requires 1 <= counter
    ensures |IssuedIds(counter)| == counter - 1
    decreases counter
  {
    if counter == 1 {
      assert IssuedIds(1) == {};
    } else {
      IssuedIdsCount(counter - 1);
      IssueNext(counter - 1);
    }
  }

  /** The script's registrations: doctor D1 (Cardiology), then patient P1. */
  method DemoRegistry() returns (h: Hospital, d: Doctor, p: Patient)
    ensures fresh(h) && fresh(d) && fresh(p)
    ensures h.Valid() && h.counter == 1 && h.appointments == map[]
    ensures h.doctorOrder == ["D1"] && h.doctors == map["D1" := d] && d.specialization == "Cardiology"
    ensures d.available && d.id == "D1"
    ensures h.patients == map["P1" := p] && h.bills == map["P1" := []] && p.id == "P1"
  {
    h := new Hospital();
    d := new Doctor("D1", "Cardiology");
    h.Register(DoctorRole(d));
    p := new Patient("P1");
    h.Register(PatientRole(p));
  }

  /** The script's run: P1 is admitted and booked with a cardiologist; the
      booking is A1 with D1, and the bill comes to 5000 + 1000. */
  method HospitalDemo() returns (appt: Result<Appointment, HospitalError>, total: Result<int, HospitalError>)
    ensures appt.Ok? && appt.value.id == "A1" && appt.value.doctor.id == "D1"
    ensures total == Ok(6000)
  {
    var h, d, p := DemoRegistry();
    var admitted := h.Admit(p);
    assert h.FirstFitFrom(0, "Cardiology") == Some(0);
    appt := h.Schedule("P1", "Cardiology", DateTime(2025, 9, 28, 10));
    assert Decimal.Format(1) == "1";
    assert h.bills["P1"] == [LineItem("Admission", 5000)] + [LineItem("Appointment", 1000)];
    TotalAppend([], LineItem("Admission", 5000));
    TotalAppend([LineItem("Admission", 5000)], LineItem("Appointment", 1000));
    total := h.Bill("P1");
  }

  /** Once the only cardiologist is booked, a second request for cardiology
      finds no doctor, and that refusal charges nothing. */
  method SecondBookingScenario() returns (first: Result<Appointment, HospitalError>,
                                          second: Result<Appointment, HospitalError>,
                                          total: Result<int, HospitalError>)
    ensures first.Ok? && first.value.doctor.id == "D1"
    ensures second == Err(NoDoctorAvailable)
    ensures total == Ok(1000)
  {
    var h, d, p := DemoRegistry();
    assert h.FirstFitFrom(0, "Cardiology") == Some(0);
    first := h.Schedule("P1", "Cardiology", DateTime(2025, 9, 28, 10));
    assert !d.available;
    assert h.FirstFitFrom(0, "Cardiology") == None;
    second := h.Schedule("P1", "Cardiology", DateTime(2025, 9, 29, 10));
    assert h.bills["P1"] == [] + [LineItem("Appointment", 1000)];
    TotalAppend([], LineItem("Appointment", 1000));
    total := h.Bill("P1");
  }
}
