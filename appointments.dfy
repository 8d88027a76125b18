/** The records the views receive from the REST backend and the
    appointment payload both dashboards send back. */
module Appointments {
  import opened Common

  datatype Patient = Patient(
    id: Option<int>, firstName: string, lastName: string, email: string,
    phone: string, address: string, age: string, gender: string)

  datatype Doctor = Doctor(id: int, name: string, specialization: string)

  datatype Appointment = Appointment(
    id: int, date: string, time: string, status: string,
    patient: Option<Patient>, doctor: Option<Doctor>)

  datatype MedicalRecord = MedicalRecord(
    id: int, diagnosis: string, treatment: string, notes: string,
    recordDate: string, patient: Option<Patient>)

  /** The body of a create or update request for an appointment. */
  datatype AppointmentPayload = AppointmentPayload(
    patientId: string, doctorId: string, date: string, time: string,
    appointmentTime: string, notes: string, status: string)

  /** A form's "HH:MM" time as the backend's "HH:MM:SS". */
  function WithSeconds(time: string): string
  {
    time + ":00"
  }

  /** The combined local date-time `${date}T${time}:00`. */
  function CombinedDateTime(date: string, time: string): string
  {
    date + "T" + WithSeconds(time)
  }

  /** The combined date-time splits back, at its first "T", into the date and
      the payload's time, provided the date itself holds no "T" (an ISO date
      never does). */
  lemma CombinedDateTimeSplits(date: string, time: string)
    requires 'T' !in date
    ensures SplitAtFirst(CombinedDateTime(date, time), 'T') == (date, WithSeconds(time))
  {
    var s := CombinedDateTime(date, time);
    assert s == date + ['T'] + WithSeconds(time);
    assert 'T' in s by { assert s[|date|] == 'T'; }
    var r := SplitAtFirst(s, 'T');
    SplitPrefixUnique(date, r.0, WithSeconds(time), r.1, 'T');
  }

  lemma {:induction false} SplitPrefixUnique(a: string, b: string, x: string, y: string, c: char)
    requires c !in a && c !in b && a + [c] + x == b + [c] + y
    ensures a == b && x == y
  {
    if a != [] && b != [] {
      assert a[0] == (a + [c] + x)[0] == (b + [c] + y)[0] == b[0];
      assert a[1..] + [c] + x == (a + [c] + x)[1..];
      assert b[1..] + [c] + y == (b + [c] + y)[1..];
      SplitPrefixUnique(a[1..], b[1..], x, y, c);
    } else {
      assert (a + [c] + x)[0] == (b + [c] + y)[0];
      assert a == [] && b == [];
      assert x == (a + [c] + x)[1..];
      assert y == (b + [c] + y)[1..];
    }
  }

  /** `a.patient?.id`: undefined when the appointment has no patient. */
  function PatientIdOf(a: Appointment): Option<int>
  {
    match a.patient
    case None => None
    case Some(p) => p.id
  }

  /** `r.patient?.id` for a medical record. */
  function RecordPatientIdOf(r: MedicalRecord): Option<int>
  {
    match r.patient
    case None => None
    case Some(p) => p.id
  }
}
