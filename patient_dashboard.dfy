/** The patient dashboard: which slots are taken for the chosen doctor and
    date, the booking draft and its transitions, the booking submission, and
    the patient's own appointment and record lists. */
module PatientDashboard {
  import opened Common
  import opened Appointments
  import opened Session
  import Slots

  /** The booking form (`newBooking`). */
  datatype Draft = Draft(doctorId: string, date: string, time: string, notes: string)

  const EmptyDraft := Draft("", "", "", "")

  /** The two statuses that free a slot, spelled exactly as this view spells
      them: the comparison is case-sensitive. */
  predicate IsActiveStatus(status: string)
  {
    status != "Cancelled" && status != "Rejected"
  }

  /** The `some` callback of `isSlotBooked`: the appointment is with the
      parsed doctor, on the date, at the slot (the first five characters of
      its "HH:MM:SS" time), and not cancelled or rejected. An appointment
      without a doctor never matches, and neither does any appointment when
      the doctor id does not parse (NaN). */
  predicate HoldsSlot(a: Appointment, doctorId: string, date: string, slot: string)
  {
    && a.doctor.Some? && ParseInt(doctorId) == Some(a.doctor.value.id)
    && a.date == date
    && Take(a.time, 5) == slot
    && IsActiveStatus(a.status)
  }

  /** `appointments.some(...)`. */
  function AnyHoldsSlot(apps: seq<Appointment>, doctorId: string, date: string, slot: string): (r: bool)
    ensures r <==> exists i :: 0 <= i < |apps| && HoldsSlot(apps[i], doctorId, date, slot)
  {
    if apps == [] then false
    else HoldsSlot(apps[0], doctorId, date, slot) || AnyHoldsSlot(apps[1..], doctorId, date, slot)
  }

  /** `isSlotBooked(slot)` against the snapshot `apps` and the draft's doctor
      and date: never booked while either is empty; otherwise booked exactly
      when some appointment in the snapshot holds the slot. */
  function IsSlotBooked(apps: seq<Appointment>, doctorId: string, date: string, slot: string): (booked: bool)
    ensures doctorId == "" || date == "" ==> !booked
    ensures booked <==> doctorId != "" && date != "" && exists a :: a in apps && HoldsSlot(a, doctorId, date, slot)
  {
    if doctorId == "" || date == "" then false else AnyHoldsSlot(apps, doctorId, date, slot)
  }

  /** An appointment that does not hold the slot (another doctor, another
      date, another time, or a freeing status) never changes whether the slot
      is booked. */
  lemma NonHolderIrrelevant(apps: seq<Appointment>, a: Appointment, doctorId: string, date: string, slot: string)
    requires !HoldsSlot(a, doctorId, date, slot)
    ensures IsSlotBooked(apps + [a], doctorId, date, slot) == IsSlotBooked(apps, doctorId, date, slot)
  {
    var both := apps + [a];
    if IsSlotBooked(both, doctorId, date, slot) {
      var b :| b in both && HoldsSlot(b, doctorId, date, slot);
      assert b in apps;
    }
  }

  /** Cancelling the only appointment that holds a slot frees it. */
  lemma CancellingFrees(apps: seq<Appointment>, a: Appointment, doctorId: string, date: string, slot: string)
    requires forall b :: b in apps ==> !HoldsSlot(b, doctorId, date, slot)
    ensures !IsSlotBooked(apps + [a.(status := "Cancelled")], doctorId, date, slot)
  {
    NonHolderIrrelevant(apps, a.(status := "Cancelled"), doctorId, date, slot);
  }

  // ---------------------------------------------------------------------
  // Worked cases: one Pending appointment with doctor 5 at 09:00 on 2025-06-01.

  function Sample(status: string): Appointment
  {
    Appointment(1, "2025-06-01", "09:00:00", status, None, Some(Doctor(5, "", "")))
  }

  /** Only "09:00" is taken for doctor "5" on that date. */
  lemma SampleBlocksOnlyNine(i: nat)
    requires i < 32
    ensures |Slots.Catalogue(9, 17)| == 32
    ensures IsSlotBooked([Sample("Pending")], "5", "2025-06-01", Slots.Catalogue(9, 17)[i]) <==> i == 0
  {
    Slots.CatalogueTimes(9, 17, i);
    Slots.BusinessDayEnds();
    SampleBlocksAt(Slots.Catalogue(9, 17), i);
  }

  /** In a list of slots that opens at "09:00" and steps by a quarter of an
      hour, the sample holds the first slot and no other. */
  lemma SampleBlocksAt(c: seq<string>, i: nat)
    requires i < |c| && c[0] == "09:00" && Slots.ParseSlot(c[i]) == Some(540 + 15 * i)
    ensures IsSlotBooked([Sample("Pending")], "5", "2025-06-01", c[i]) <==> i == 0
  {
    SampleHolds(c[i]);
    assert Slots.ParseSlot("09:00") == Some(540);
  }

  /** The sample appointment holds exactly the slot "09:00". */
  lemma SampleHolds(slot: string)
    ensures IsSlotBooked([Sample("Pending")], "5", "2025-06-01", slot) <==> slot == "09:00"
  {
    assert ParseInt("5") == Some(5) by { ParseIntOfNatToString(5); }
    assert Take("09:00:00", 5) == "09:00";
  }

  /** Another doctor, another date, or a cancelled appointment leaves every
      slot free. */
  lemma SampleMismatchesFree(slot: string)
    ensures !IsSlotBooked([Sample("Pending")], "7", "2025-06-01", slot)
    ensures !IsSlotBooked([Sample("Pending")], "5", "2025-06-02", slot)
    ensures !IsSlotBooked([Sample("Cancelled")], "5", "2025-06-01", slot)
  {
    assert ParseInt("7") == Some(7) by { ParseIntOfNatToString(7); }
  }

  /** The doctor dashboard rejects with the status "REJECTED", which this
      view's case-sensitive check does not recognise: a rejected appointment
      keeps its slot taken. */
  lemma DoctorRejectionStillBlocks()
    ensures IsSlotBooked([Sample("REJECTED")], "5", "2025-06-01", "09:00")
  {
    assert ParseInt("5") == Some(5) by { ParseIntOfNatToString(5); }
    assert Take("09:00:00", 5) == "09:00";
  }

  // ---------------------------------------------------------------------
  // Booking submission

  /** The body `handleBookAppointment` posts; `None` when the stored patient
      has no id, since `patient.id.toString()` then throws. */
  function BookingPayload(p: Patient, d: Draft): Option<AppointmentPayload>
  {
    match p.id
    case None => None
    case Some(pid) =>
      Some(AppointmentPayload(IntToString(pid), d.doctorId, d.date, WithSeconds(d.time),
                              CombinedDateTime(d.date, d.time), d.notes, "Pending"))
  }

  /** The appointment the backend would store for a payload and doctor. */
  function StoredFrom(payload: AppointmentPayload, id: int, patient: Option<Patient>, doctor: Doctor): Appointment
  {
    Appointment(id, payload.date, payload.time, payload.status, patient, Some(doctor))
  }

  /** A booking made from a slot of the catalogue, once stored and
      re-fetched, takes exactly that slot for that doctor and date: the
      payload's "HH:MM:SS" time cuts back to the slot, its status is active,
      and its combined date-time splits back into date and time. */
  lemma BookingTakesItsSlot(p: Patient, d: Draft, doctor: Doctor, id: int, apps: seq<Appointment>)
    requires p.id.Some? && d.doctorId != "" && d.date != "" && 'T' !in d.date
    requires d.time in Slots.Catalogue(9, 17)
    requires ParseInt(d.doctorId) == Some(doctor.id)
    ensures BookingPayload(p, d).Some?
    ensures var payload := BookingPayload(p, d).value;
      && IsSlotBooked(apps + [StoredFrom(payload, id, Some(p), doctor)], d.doctorId, d.date, d.time)
      && SplitAtFirst(payload.appointmentTime, 'T') == (payload.date, payload.time)
  {
    var payload := BookingPayload(p, d).value;
    var k :| 0 <= k < |Slots.Catalogue(9, 17)| && Slots.Catalogue(9, 17)[k] == d.time;
    Slots.CatalogueLength(9, 17);
    Slots.CatalogueTimes(9, 17, k);
    assert Take(payload.time, 5) == d.time by {
      assert payload.time == d.time + ":00";
      assert payload.time[..5] == d.time;
    }
    var stored := StoredFrom(payload, id, Some(p), doctor);
    assert HoldsSlot(stored, d.doctorId, d.date, d.time);
    assert stored in apps + [stored];
    CombinedDateTimeSplits(d.date, d.time);
  }

  /** The alert text of the `catch` branch. */
  datatype ErrorDetail = NoResponseBody | TextBody(text: string) | ObjectBody(message: Option<string>)

  function FailureAlert(e: ErrorDetail): string
  {
    match e
    case TextBody(t) => if t == "" then "Booking Failed! Please try again." else "Booking Failed: " + t
    case ObjectBody(m) => "Booking Failed: " + (if m.Some? then m.value else "undefined")
    case NoResponseBody => "Booking Failed! Please try again."
  }

  const MissingFieldsAlert := "Please select a doctor, date and time!"
  const SentAlert := "Appointment Request Sent Successfully!"

  /** How the two awaited calls of a booking end: the post is refused; the
      post succeeds and the re-fetch fails; or both succeed, with the
      re-fetched appointments. */
  datatype BookingOutcome =
    | PostFailed(detail: ErrorDetail)
    | RefreshFailed(detail: ErrorDetail)
    | Refreshed(appointments: seq<Appointment>)

  /** `appointments.filter(a => a.patient?.id === patientId)`. */
  function OwnAppointments(apps: seq<Appointment>, pid: Option<int>): (r: seq<Appointment>)
    ensures forall a :: a in r <==> a in apps && PatientIdOf(a) == pid
  {
    Filter(apps, (a: Appointment) => PatientIdOf(a) == pid)
  }

  /** `records.filter(r => r.patient?.id === patientId)`. */
  function OwnRecords(recs: seq<MedicalRecord>, pid: Option<int>): (r: seq<MedicalRecord>)
    ensures forall x :: x in r <==> x in recs && RecordPatientIdOf(x) == pid
  {
    Filter(recs, (x: MedicalRecord) => RecordPatientIdOf(x) == pid)
  }

  /** The patient's list keeps the snapshot's order: filtering a
      concatenation is concatenating the filtered parts. */
  lemma OwnAppointmentsAppend(a: seq<Appointment>, b: seq<Appointment>, pid: Option<int>)
    ensures OwnAppointments(a + b, pid) == OwnAppointments(a, pid) + OwnAppointments(b, pid)
  {
    FilterAppend(a, b, (x: Appointment) => PatientIdOf(x) == pid);
  }

  /** `a.patient?.id === patient.id` holds when both sides are undefined: a
      stored patient whose id is absent is shown every appointment that has
      no patient, or whose patient has no id. (`None` stands for an absent
      id; a `null` id is not told apart.) */
  lemma MissingIdMatchesOrphans(apps: seq<Appointment>, a: Appointment)
    requires a.patient.None? || a.patient.value.id.None?
    ensures a in OwnAppointments(apps + [a], None)
  {
  }

  class PatientDashboardView {
    var patient: Option<Patient>
    var redirect: Option<string>
    var loading: bool
    var allAppointments: seq<Appointment>
    var myAppointments: seq<Appointment>
    var myRecords: seq<MedicalRecord>
    var doctors: seq<Doctor>
    var showBookingForm: bool
    var draft: Draft
    const timeSlots: seq<string>

    /** The slot grid is on screen: the page is past its loading screen
        with a patient, the booking form is open, and a doctor and a date
        are chosen. */
    predicate GridShown()
      reads this
    {
      !loading && patient.Some? && showBookingForm && draft.doctorId != "" && draft.date != ""
    }

    /** A slot the patient may hold: a doctor and a date are chosen, the slot
        is one of the grid's buttons, and that button is not disabled. */
    predicate Selectable(slot: string)
      reads this
    {
      && draft.doctorId != "" && draft.date != ""
      && slot in timeSlots
      && !IsSlotBooked(allAppointments, draft.doctorId, draft.date, slot)
    }

    /** The chosen time is empty or free for the current doctor and date, and
        the patient's list is exactly the patient's part of the snapshot. */
    ghost predicate Valid()
      reads this
    {
      && timeSlots == Slots.Catalogue(9, 17)
      && (draft.time == "" || Selectable(draft.time))
      && (patient.Some? ==> myAppointments == OwnAppointments(allAppointments, patient.value.id))
      && (patient.None? ==> allAppointments == [] && myAppointments == [])
    }

    /** Mounting the view: the stored patient, then the appointments, the
        records and the doctors are fetched in turn; a failed fetch of the
        appointments or the records skips everything after it, a failed fetch
        of the doctors only leaves that list empty. With no stored patient
        the view redirects to the login page and stays loading; with an
        unreadable one `JSON.parse` throws and nothing is set. */
    constructor (stored: StoredItem<Patient>, appointmentsFetch: Option<seq<Appointment>>,
                 recordsFetch: Option<seq<MedicalRecord>>, doctorsFetch: Option<seq<Doctor>>)
      ensures Valid()
      ensures draft == EmptyDraft && !showBookingForm
      ensures redirect == (if Present(stored) then None else Some("/patient-login"))
      ensures patient == (if stored.Parsed? then Some(stored.value) else None)
      ensures loading == !stored.Parsed?
      ensures allAppointments == (if stored.Parsed? && appointmentsFetch.Some? then appointmentsFetch.value else [])
      ensures myRecords == (if stored.Parsed? && appointmentsFetch.Some? && recordsFetch.Some?
                            then OwnRecords(recordsFetch.value, stored.value.id) else [])
      ensures doctors == (if stored.Parsed? && appointmentsFetch.Some? && recordsFetch.Some? && doctorsFetch.Some?
                          then doctorsFetch.value else [])
    {
      var loaded := stored.Parsed?;
      var apps := if loaded && appointmentsFetch.Some? then appointmentsFetch.value else [];
      var pid := if loaded then stored.value.id else None;
      timeSlots := Slots.Catalogue(9, 17);
      draft := EmptyDraft;
      showBookingForm := false;
      patient := if loaded then Some(stored.value) else None;
      redirect := if Present(stored) then None else Some("/patient-login");
      loading := !loaded;
      allAppointments := apps;
      myAppointments := if loaded then OwnAppointments(apps, pid) else [];
      myRecords := if loaded && appointmentsFetch.Some? && recordsFetch.Some?
                   then OwnRecords(recordsFetch.value, pid) else [];
      doctors := if loaded && appointmentsFetch.Some? && recordsFetch.Some? && doctorsFetch.Some?
                 then doctorsFetch.value else [];
    }

    /** The doctor `<select>`: a new doctor clears the chosen time. */
    method SelectDoctor(value: string)
      requires Valid()
      modifies this`draft
      ensures Valid()
      ensures draft == old(draft).(doctorId := value, time := "")
    {
      draft := draft.(doctorId := value, time := "");
    }

    /** The date input: a new date clears the chosen time. */
    method SelectDate(value: string)
      requires Valid()
      modifies this`draft
      ensures Valid()
      ensures draft == old(draft).(date := value, time := "")
    {
      draft := draft.(date := value, time := "");
    }

    /** The reason input. */
    method EditNotes(value: string)
      requires Valid()
      modifies this`draft
      ensures Valid()
      ensures draft == old(draft).(notes := value)
    {
      draft := draft.(notes := value);
    }

    /** "+ Book New Appointment" / "Go Back": shows or hides the form; the
        draft is kept either way. */
    method ToggleBookingForm()
      requires Valid()
      modifies this`showBookingForm
      ensures Valid()
      ensures showBookingForm == !old(showBookingForm)
    {
      showBookingForm := !showBookingForm;
    }

    /** A click on a slot button: it takes effect only on a button that is
        rendered (the grid is shown) and enabled, and then chooses that slot. */
    method ClickSlot(slot: string) returns (chosen: bool)
      requires Valid()
      modifies this`draft
      ensures Valid()
      ensures chosen == old(GridShown() && Selectable(slot))
      ensures draft == if chosen then old(draft).(time := slot) else old(draft)
    {
      chosen := !loading && patient.Some? && showBookingForm
                && draft.doctorId != "" && draft.date != "" && slot in timeSlots
                && !IsSlotBooked(allAppointments, draft.doctorId, draft.date, slot);
      if chosen {
        draft := draft.(time := slot);
      }
    }

    /** `handleBookAppointment`: nothing is sent unless a patient is loaded and
        doctor, date and time are all chosen; otherwise the payload is posted.
        The form never re-checks the slot, but whatever it sends is a slot that
        is free in the current snapshot, since only free slots can be chosen.
        A refused post leaves everything as it was; an accepted one closes the
        form and empties the draft, and a successful re-fetch replaces the
        snapshot and the patient's list. */
    method HandleBookAppointment(outcome: BookingOutcome) returns (sent: Option<AppointmentPayload>, alerts: seq<string>)
      requires Valid()
      modifies this`draft, this`showBookingForm, this`allAppointments, this`myAppointments
      ensures Valid()
      ensures var guarded := old(patient).None? || old(draft).doctorId == "" || old(draft).date == "" || old(draft).time == "";
        && (guarded ==> sent.None? && alerts == [MissingFieldsAlert])
        && (!guarded ==> sent == BookingPayload(old(patient).value, old(draft)))
        && (!guarded && sent.None? ==> alerts == [FailureAlert(NoResponseBody)])
      ensures sent.Some? ==> old(Selectable(draft.time))
      ensures sent.None? || outcome.PostFailed? ==>
        && draft == old(draft) && showBookingForm == old(showBookingForm)
        && allAppointments == old(allAppointments) && myAppointments == old(myAppointments)
      ensures sent.Some? && outcome.PostFailed? ==> alerts == [FailureAlert(outcome.detail)]
      ensures sent.Some? && !outcome.PostFailed? ==> draft == EmptyDraft && !showBookingForm
      ensures sent.Some? && outcome.RefreshFailed? ==>
        && alerts == [SentAlert, FailureAlert(outcome.detail)]
        && allAppointments == old(allAppointments) && myAppointments == old(myAppointments)
      ensures sent.Some? && outcome.Refreshed? ==>
        && alerts == [SentAlert]
        && allAppointments == outcome.appointments
        && myAppointments == OwnAppointments(outcome.appointments, patient.value.id)
    {
      if patient.None? || draft.doctorId == "" || draft.date == "" || draft.time == "" {
        sent, alerts := None, [MissingFieldsAlert];
        return;
      }
      var p := patient.value;
      sent := BookingPayload(p, draft);
      if sent.None? {
        alerts := [FailureAlert(NoResponseBody)];
        return;
      }
      match outcome {
        case PostFailed(detail) =>
          alerts := [FailureAlert(detail)];
        case RefreshFailed(detail) =>
          showBookingForm := false;
          draft := EmptyDraft;
          alerts := [SentAlert, FailureAlert(detail)];
        case Refreshed(apps) =>
          showBookingForm := false;
          draft := EmptyDraft;
          allAppointments := apps;
          myAppointments := OwnAppointments(apps, p.id);
          alerts := [SentAlert];
      }
    }
  }
}
