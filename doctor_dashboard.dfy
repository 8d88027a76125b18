/** The doctor dashboard: the 30-day default roster and its edits, the
    income total, the cleaned doctor name, the create-or-update choice and
    payloads of the save handlers, the status labels and the Accept/Reject
    gate, the consultation flow and the form reset. */
module DoctorDashboard {
  import opened Common
  import opened Appointments
  import opened Session

  // ---------------------------------------------------------------------
  // Duty roster (front end)

  /** A roster day; the date is a day number counted from an arbitrary
      origin, standing for the ISO date string. */
  datatype RosterEntry = RosterEntry(date: int, status: string)

  /** `generateNext30Days()`: today and the 29 days after it, each "OFF". */
  method GenerateNext30Days(today: int) returns (days: seq<RosterEntry>)
    ensures |days| == 30
    ensures forall i :: 0 <= i < |days| ==> days[i] == RosterEntry(today + i, "OFF")
  {
    days := [];
    var i := 0;
    while i < 30
      invariant 0 <= i <= 30 && |days| == i
      invariant forall k :: 0 <= k < i ==> days[k] == RosterEntry(today + k, "OFF")
    {
      days := days + [RosterEntry(today + i, "OFF")];
      i := i + 1;
    }
  }

  /** `handleRosterChange(date, status)` on the roster: the same entries in
      the same order with the same dates; those on `date` get `status`, the
      others are untouched. */
  function ChangeRoster(roster: seq<RosterEntry>, date: int, status: string): (r: seq<RosterEntry>)
    ensures |r| == |roster|
    ensures forall i :: 0 <= i < |r| ==>
      r[i].date == roster[i].date
      && r[i].status == (if roster[i].date == date then status else roster[i].status)
  {
    if roster == [] then []
    else
      var head := if roster[0].date == date then roster[0].(status := status) else roster[0];
      [head] + ChangeRoster(roster[1..], date, status)
  }

  /** Choosing a status for a day a second time overrides the first choice. */
  lemma ChangeRosterLastWins(roster: seq<RosterEntry>, date: int, s1: string, s2: string)
    ensures ChangeRoster(ChangeRoster(roster, date, s1), date, s2) == ChangeRoster(roster, date, s2)
  {
  }

  /** Changes to different days do not interfere. */
  lemma ChangeRosterCommutes(roster: seq<RosterEntry>, d1: int, s1: string, d2: int, s2: string)
    requires d1 != d2
    ensures ChangeRoster(ChangeRoster(roster, d1, s1), d2, s2) == ChangeRoster(ChangeRoster(roster, d2, s2), d1, s1)
  {
  }

  /** The label and the colour of the dashboard preview. */
  function RosterLabel(status: string): string
  {
    if status == "DUTY" then "On Duty"
    else if status == "HALFDAY-MORNING" then "Morning"
    else if status == "HALFDAY-EVENING" then "Evening"
    else "Off"
  }

  function RosterColor(status: string): string
  {
    if status == "DUTY" then "#28a745"
    else if status == "HALFDAY-MORNING" then "#ffc107"
    else if status == "HALFDAY-EVENING" then "#007bff"
    else "#dc3545"
  }

  /** The CSS class of the roster table's `<select>`. */
  function RosterClass(status: string): string
  {
    match status
    case "DUTY" => "status-duty"
    case "HALFDAY-MORNING" => "status-morning"
    case "HALFDAY-EVENING" => "status-evening"
    case _ => "status-off"
  }

  /** The preview, the colour and the table class agree on every status:
      the four values the `<select>` offers get four different labels, and
      every other status shows as a day off everywhere. */
  lemma RosterPresentationAgrees(status: string)
    ensures RosterLabel(status) == "Off" <==> RosterClass(status) == "status-off"
    ensures RosterLabel(status) == "Off" <==> RosterColor(status) == "#dc3545"
    ensures RosterLabel(status) == "On Duty" <==> RosterClass(status) == "status-duty"
    ensures RosterLabel(status) == "Morning" <==> RosterClass(status) == "status-morning"
    ensures RosterLabel(status) == "Evening" <==> RosterClass(status) == "status-evening"
    ensures RosterLabel(status) != "Off" <==>
      status == "DUTY" || status == "HALFDAY-MORNING" || status == "HALFDAY-EVENING"
  {
  }

  /** `rosterData.slice(0, 15)` as labels. */
  function Preview(roster: seq<RosterEntry>): (r: seq<string>)
    ensures |r| == if |roster| < 15 then |roster| else 15
    ensures forall i :: 0 <= i < |r| ==> r[i] == RosterLabel(roster[i].status)
  {
    var shown := if |roster| < 15 then roster else roster[..15];
    seq(|shown|, i requires 0 <= i < |shown| => RosterLabel(shown[i].status))
  }

  /** A roster that is still all "OFF" previews 15 days off. */
  lemma DefaultPreviewAllOff(roster: seq<RosterEntry>)
    requires |roster| == 30 && forall i :: 0 <= i < |roster| ==> roster[i].status == "OFF"
    ensures Preview(roster) == seq(15, _ => "Off")
  {
  }

  // ---------------------------------------------------------------------
  // Income

  datatype Billing = Billing(billId: int, amount: int, paymentMethod: string, paymentDate: string,
                             status: string, appointmentId: Option<int>)

  /** `bills.reduce((acc, b) => acc + b.amount, acc)`. */
  function ReduceAmounts(bills: seq<Billing>, acc: int): int
  {
    if bills == [] then acc else ReduceAmounts(bills[1..], acc + bills[0].amount)
  }

  /** The income the dashboard shows. */
  function Income(bills: seq<Billing>): int
  {
    ReduceAmounts(bills, 0)
  }

  /** Reference definition: the sum of the amounts. */
  function SumAmounts(bills: seq<Billing>): int
  {
    if bills == [] then 0 else SumAmounts(bills[..|bills| - 1]) + bills[|bills| - 1].amount
  }

  lemma {:induction false} SumAmountsAppend(a: seq<Billing>, b: seq<Billing>)
    ensures SumAmounts(a + b) == SumAmounts(a) + SumAmounts(b)
    decreases |b|
  {
    if b == [] {
      assert a + b == a;
    } else {
      SumAmountsAppend(a, b[..|b| - 1]);
      assert (a + b)[..|a + b| - 1] == a + b[..|b| - 1];
    }
  }

  lemma {:induction false} ReduceIsSum(bills: seq<Billing>, acc: int)
    ensures ReduceAmounts(bills, acc) == acc + SumAmounts(bills)
  {
    if bills != [] {
      ReduceIsSum(bills[1..], acc + bills[0].amount);
      SumAmountsAppend([bills[0]], bills[1..]);
      assert [bills[0]] + bills[1..] == bills;
      assert SumAmounts([bills[0]]) == bills[0].amount;
    }
  }

  /** The income is the sum of all amounts: 0 with no bills, additive over
      concatenated lists, and at least every single amount when none is
      negative. */
  lemma IncomeSpec(bills: seq<Billing>, more: seq<Billing>)
    ensures Income(bills) == SumAmounts(bills)
    ensures Income([]) == 0
    ensures Income(bills + more) == Income(bills) + Income(more)
    ensures (forall i :: 0 <= i < |bills| ==> bills[i].amount >= 0) ==>
      Income(bills) >= 0 && forall i :: 0 <= i < |bills| ==> bills[i].amount <= Income(bills)
  {
    ReduceIsSum(bills, 0);
    ReduceIsSum(more, 0);
    ReduceIsSum(bills + more, 0);
    SumAmountsAppend(bills, more);
    if forall i :: 0 <= i < |bills| ==> bills[i].amount >= 0 {
      forall i | 0 <= i < |bills|
        ensures bills[i].amount <= Income(bills)
      {
        NonNegativeSplit(bills, i);
      }
      NonNegativeSum(bills);
    }
  }

  lemma {:induction false} NonNegativeSum(bills: seq<Billing>)
    requires forall i :: 0 <= i < |bills| ==> bills[i].amount >= 0
    ensures SumAmounts(bills) >= 0
  {
    if bills != [] {
      NonNegativeSum(bills[..|bills| - 1]);
    }
  }

  lemma NonNegativeSplit(bills: seq<Billing>, i: nat)
    requires i < |bills| && forall k :: 0 <= k < |bills| ==> bills[k].amount >= 0
    ensures bills[i].amount <= SumAmounts(bills)
  {
    assert bills == bills[..i] + [bills[i]] + bills[i + 1..];
    SumAmountsAppend(bills[..i] + [bills[i]], bills[i + 1..]);
    SumAmountsAppend(bills[..i], [bills[i]]);
    NonNegativeSum(bills[..i]);
    NonNegativeSum(bills[i + 1..]);
    assert SumAmounts([bills[i]]) == bills[i].amount;
  }

  // ---------------------------------------------------------------------
  // Doctor name

  /** The name shown in the header: `name || username` with the doctor
      title removed; "" when the stored blob has neither. */
  function DoctorNameOf(blob: SessionBlob): (r: string)
    ensures !Truthy(blob.name) && !Truthy(blob.username) ==> r == ""
    ensures Truthy(blob.name) ==> r == StripDrPrefix(blob.name.value)
    ensures !Truthy(blob.name) && Truthy(blob.username) ==> r == StripDrPrefix(blob.username.value)
  {
    var full := OrElse(blob.name, blob.username);
    if Truthy(full) then StripDrPrefix(full.value) else ""
  }

  /** "Dr." and one space are removed whole from a name whose next
      character is not white space. */
  lemma StripDrDotSpace(w: string)
    requires w != [] && !IsJsWhitespace(w[0])
    ensures StripDrPrefix("Dr. " + w) == w
  {
    var name := "Dr. " + w;
    assert name[3] == ' ' && name[4] == w[0];
    assert name[4..] == w;
  }

  /** "Dr. Silva" is shown as "Silva". */
  lemma StripDrTitle()
    ensures StripDrPrefix("Dr. Silva") == "Silva"
  {
    StripDrDotSpace("Silva");
    assert "Dr. " + "Silva" == "Dr. Silva";
  }

  /** The pattern has no word boundary: a name that merely begins with
      the letters "dr" loses them too. */
  lemma StripDrNoWordBoundary()
    ensures StripDrPrefix("Drew Silva") == "ew Silva"
  {
    assert "Drew Silva"[2..] == "ew Silva" && !IsJsWhitespace('e');
  }

  // ---------------------------------------------------------------------
  // Create or update

  datatype SaveTarget = Create | Update(id: int)

  /** `if (isEditing && editingId)`: an update of `editingId` only while
      editing with a truthy (present, non-zero) id; a create otherwise. */
  function ChooseTarget(isEditing: bool, editingId: Option<int>): (r: SaveTarget)
    ensures r.Update? <==> isEditing && editingId.Some? && editingId.value != 0
    ensures r.Update? ==> r.id == editingId.value
  {
    if isEditing && editingId.Some? && editingId.value != 0 then Update(editingId.value) else Create
  }

  datatype AppointmentForm = AppointmentForm(patientId: string, doctorId: string, date: string, time: string, notes: string)
  datatype RecordForm = RecordForm(patientId: string, doctorId: string, diagnosis: string, treatment: string,
                                   notes: string, recordDate: string)
  datatype BillForm = BillForm(appointmentId: string, amount: string, paymentMethod: string, status: string)
  datatype BillPayload = BillPayload(amount: string, paymentMethod: string, status: string,
                                     paymentDate: string, appointmentId: string)

  const EmptyPatientForm := Patient(None, "", "", "", "", "", "", "")
  const EmptyAppointmentForm := AppointmentForm("", "", "", "", "")
  const EmptyRecordForm := RecordForm("", "", "", "", "", "")
  const DefaultBillForm := BillForm("", "", "CASH", "PAID")

  /** The body `handleSaveAppointment` sends. */
  function DoctorAppointmentPayload(f: AppointmentForm): AppointmentPayload
  {
    AppointmentPayload(f.patientId, f.doctorId, f.date, WithSeconds(f.time),
                       CombinedDateTime(f.date, f.time), f.notes, "SCHEDULED")
  }

  /** The payload keeps every form field, appends the seconds to the time,
      and its combined date-time splits back into the date and that time. */
  lemma DoctorPayloadSpec(f: AppointmentForm)
    requires 'T' !in f.date
    ensures var p := DoctorAppointmentPayload(f);
      && p.patientId == f.patientId && p.doctorId == f.doctorId && p.date == f.date && p.notes == f.notes
      && p.time == f.time + ":00" && p.status == "SCHEDULED"
      && SplitAtFirst(p.appointmentTime, 'T') == (p.date, p.time)
  {
    CombinedDateTimeSplits(f.date, f.time);
  }

  /** The body `handleSaveBill` sends; `now` stands for the clock reading. */
  function BillPayloadOf(f: BillForm, now: string): BillPayload
  {
    BillPayload(f.amount, f.paymentMethod, f.status, now, f.appointmentId)
  }

  /** `n.toString()` is never empty and parses back to `n`. */
  lemma IntToStringParses(n: int)
    ensures IntToString(n) != ""
    ensures ParseInt(IntToString(n)) == Some(n)
  {
    var digits := NatToString(if n < 0 then -n else n);
    LeadingDigitsOfDigits(digits);
    NatToStringValue(if n < 0 then -n else n);
    assert IsDigit(digits[0]);
    if n < 0 {
      assert IntToString(n)[1..] == digits;
    }
  }

  /** `x?.toString() || ''` on an optional number. */
  function OptionalIdText(id: Option<int>): (r: string)
    ensures id.None? <==> r == ""
    ensures id.Some? ==> ParseInt(r) == Some(id.value)
  {
    if id.Some? then IntToStringParses(id.value); IntToString(id.value) else ""
  }

  // ---------------------------------------------------------------------
  // Appointment decisions

  /** The colour of an appointment's status in the doctor's table. */
  function StatusColor(status: string): string
  {
    var up := ToUpper(status);
    if up == "PENDING" then "orange" else if up == "APPROVED" then "green" else "red"
  }

  /** The status values the Accept and Reject buttons request. */
  function DecisionActions(status: string): (r: seq<string>)
    ensures r != [] <==> ToUpper(status) == "PENDING"
    ensures r != [] ==> r == ["APPROVED", "REJECTED"]
  {
    if ToUpper(status) == "PENDING" then ["APPROVED", "REJECTED"] else []
  }

  /** Upper-casing leaves a string alone when it has no lower-case letter. */
  lemma {:induction false} UpperOfUpper(s: string)
    requires forall i :: 0 <= i < |s| ==> 'A' <= s[i] <= 'Z'
    ensures ToUpper(s) == s
  {
    if s != [] {
      UpperOfUpper(s[1..]);
    }
  }

  /** The patient side books with "Pending", which the doctor may accept
      or reject; so may any spelling of "pending" in mixed letter case. */
  lemma PendingOffersDecision(s: string)
    requires |s| == 7 && forall i :: 0 <= i < 7 ==> s[i] == "PENDING"[i] || s[i] == "pending"[i]
    ensures DecisionActions(s) == ["APPROVED", "REJECTED"] && StatusColor(s) == "orange"
  {
    assert ToUpper(s) == "PENDING";
  }

  /** Once decided, neither button is shown again. */
  lemma DecidedOffersNothing()
    ensures DecisionActions("APPROVED") == [] && StatusColor("APPROVED") == "green"
    ensures DecisionActions("REJECTED") == [] && StatusColor("REJECTED") == "red"
  {
    UpperOfUpper("APPROVED");
    UpperOfUpper("REJECTED");
  }

  /** An appointment the doctor creates ("SCHEDULED") is never offered a
      decision. */
  lemma ScheduledOffersNothing()
    ensures DecisionActions("SCHEDULED") == [] && StatusColor("SCHEDULED") == "red"
  {
    UpperOfUpper("SCHEDULED");
  }

  /** `window.confirm` then `PUT /appointments/{id}/status?status=...`:
      no request unless the doctor confirms. */
  function StatusUpdateRequest(id: int, status: string, confirmed: bool): (r: Option<string>)
    ensures r.Some? <==> confirmed
    ensures r.Some? ==> r.value == "/appointments/" + IntToString(id) + "/status?status=" + status
  {
    if confirmed then Some("/appointments/" + IntToString(id) + "/status?status=" + status) else None
  }

  // ---------------------------------------------------------------------
  // The view

  datatype Tab = DashboardTab | CurrentPatientTab | PatientsTab | AppointmentsTab | RecordsTab | BillingTab | RosterTab
  datatype SubTab = ViewList | AddForm

  class DoctorDashboardView {
    var activeTab: Tab
    var currentPatient: Option<Patient>
    var doctorName: string
    var doctorId: Option<int>
    var rosterData: seq<RosterEntry>
    var patientSubTab: SubTab
    var appointmentSubTab: SubTab
    var recordSubTab: SubTab
    var billingSubTab: SubTab
    var patientsList: seq<Patient>
    var appointmentsList: seq<Appointment>
    var recordsList: seq<MedicalRecord>
    var billingsList: seq<Billing>
    var income: int
    var isEditing: bool
    var editingId: Option<int>
    var newPatient: Patient
    var newAppointment: AppointmentForm
    var newRecord: RecordForm
    var newBill: BillForm
    /** The day the roster was generated for. */
    ghost const firstDay: int

    /** The roster covers 30 consecutive days from `firstDay`, an edit id is
        only kept while editing, and the income is the total of the listed
        bills. */
    ghost predicate Valid()
      reads this
    {
      && |rosterData| == 30
      && (forall i :: 0 <= i < 30 ==> rosterData[i].date == firstDay + i)
      && (!isEditing ==> editingId.None?)
      && income == Income(billingsList)
    }

    /** The mount effect: the doctor's id and cleaned name from the stored
        blob (left unset when it is missing or does not parse), and the
        default roster from `today`. */
    constructor (stored: StoredItem<SessionBlob>, today: int)
      ensures Valid() && firstDay == today
      ensures doctorId == (if stored.Parsed? then stored.value.id else None)
      ensures doctorName == (if stored.Parsed? then DoctorNameOf(stored.value) else "")
      ensures forall i :: 0 <= i < |rosterData| ==> rosterData[i].status == "OFF"
      ensures activeTab == DashboardTab && currentPatient.None? && !isEditing
      ensures patientsList == [] && appointmentsList == [] && recordsList == [] && billingsList == [] && income == 0
    {
      var days := GenerateNext30Days(today);
      firstDay := today;
      rosterData := days;
      doctorId := if stored.Parsed? then stored.value.id else None;
      doctorName := if stored.Parsed? then DoctorNameOf(stored.value) else "";
      activeTab := DashboardTab;
      currentPatient := None;
      patientSubTab, appointmentSubTab, recordSubTab, billingSubTab := ViewList, ViewList, ViewList, ViewList;
      patientsList, appointmentsList, recordsList, billingsList := [], [], [], [];
      income := 0;
      isEditing, editingId := false, None;
      newPatient, newAppointment, newRecord, newBill := EmptyPatientForm, EmptyAppointmentForm, EmptyRecordForm, DefaultBillForm;
    }

    /** The state `resetForms()` leaves: not editing, no edit id, and all
        four forms at their defaults. */
    ghost predicate FormsReset()
      reads this
    {
      && !isEditing && editingId.None?
      && newPatient == EmptyPatientForm && newAppointment == EmptyAppointmentForm
      && newRecord == EmptyRecordForm && newBill == DefaultBillForm
    }

    /** `resetForms()`. */
    method ResetForms()
      requires Valid()
      modifies this`isEditing, this`editingId, this`newPatient, this`newAppointment, this`newRecord, this`newBill
      ensures Valid() && FormsReset()
    {
      isEditing, editingId := false, None;
      newPatient, newAppointment, newRecord, newBill := EmptyPatientForm, EmptyAppointmentForm, EmptyRecordForm, DefaultBillForm;
    }

    /** `handleRosterChange(date, status)`. */
    method HandleRosterChange(date: int, status: string)
      requires Valid()
      modifies this`rosterData
      ensures Valid()
      ensures rosterData == ChangeRoster(old(rosterData), date, status)
    {
      rosterData := ChangeRoster(rosterData, date, status);
    }

    /** `fetchData()`: the patients, appointments, records and bills are
        fetched in turn, each list set as it arrives; the first failure
        skips the rest. The income is set with the bills. */
    method FetchData(patients: Option<seq<Patient>>, appointments: Option<seq<Appointment>>,
                     records: Option<seq<MedicalRecord>>, billings: Option<seq<Billing>>)
      requires Valid()
      modifies this`patientsList, this`appointmentsList, this`recordsList, this`billingsList, this`income
      ensures Valid()
      ensures patientsList == if patients.Some? then patients.value else old(patientsList)
      ensures appointmentsList == if patients.Some? && appointments.Some? then appointments.value else old(appointmentsList)
      ensures recordsList == if patients.Some? && appointments.Some? && records.Some? then records.value else old(recordsList)
      ensures billingsList == if patients.Some? && appointments.Some? && records.Some? && billings.Some?
                              then billings.value else old(billingsList)
    {
      if patients.None? { return; }
      patientsList := patients.value;
      if appointments.None? { return; }
      appointmentsList := appointments.value;
      if records.None? { return; }
      recordsList := records.value;
      if billings.None? { return; }
      billingsList := billings.value;
      income := Income(billingsList);
    }

    /** `handleSaveAppointment()`: an update of `editingId` or a create, with
        the "SCHEDULED" payload; on success the forms are reset and the list
        is shown again, on failure nothing changes. */
    method HandleSaveAppointment(ok: bool) returns (target: SaveTarget, payload: AppointmentPayload, alert: string)
      requires Valid()
      modifies this`isEditing, this`editingId, this`newPatient, this`newAppointment, this`newRecord, this`newBill,
               this`appointmentSubTab
      ensures Valid()
      ensures target == ChooseTarget(old(isEditing), old(editingId))
      ensures payload == DoctorAppointmentPayload(old(newAppointment))
      ensures ok ==> alert == (if target.Update? then "Appointment Updated!" else "Appointment Booked!")
      ensures ok ==> FormsReset() && appointmentSubTab == ViewList
      ensures !ok ==> alert == "Error Saving Appointment!" && unchanged(this)
    {
      target := ChooseTarget(isEditing, editingId);
      payload := DoctorAppointmentPayload(newAppointment);
      if !ok {
        alert := "Error Saving Appointment!";
        return;
      }
      alert := if target.Update? then "Appointment Updated!" else "Appointment Booked!";
      ResetForms();
      appointmentSubTab := ViewList;
    }

    /** `handleSavePatient()`: the patient form is sent as it stands. */
    method HandleSavePatient(ok: bool) returns (target: SaveTarget, sent: Patient, alert: string)
      requires Valid()
      modifies this`isEditing, this`editingId, this`newPatient, this`newAppointment, this`newRecord, this`newBill,
               this`patientSubTab
      ensures Valid()
      ensures target == ChooseTarget(old(isEditing), old(editingId)) && sent == old(newPatient)
      ensures ok ==> alert == (if target.Update? then "Patient Updated!" else "Patient Added!")
      ensures ok ==> FormsReset() && patientSubTab == ViewList
      ensures !ok ==> alert == "Error Saving Patient!" && unchanged(this)
    {
      target := ChooseTarget(isEditing, editingId);
      sent := newPatient;
      if !ok {
        alert := "Error Saving Patient!";
        return;
      }
      alert := if target.Update? then "Patient Updated!" else "Patient Added!";
      ResetForms();
      patientSubTab := ViewList;
    }

    /** `handleSaveRecord()`. */
    method HandleSaveRecord(ok: bool) returns (target: SaveTarget, sent: RecordForm, alert: string)
      requires Valid()
      modifies this`isEditing, this`editingId, this`newPatient, this`newAppointment, this`newRecord, this`newBill,
               this`recordSubTab
      ensures Valid()
      ensures target == ChooseTarget(old(isEditing), old(editingId)) && sent == old(newRecord)
      ensures ok ==> alert == (if target.Update? then "Record Updated!" else "Record Added!")
      ensures ok ==> FormsReset() && recordSubTab == ViewList
      ensures !ok ==> alert == "Error Saving Record!" && unchanged(this)
    {
      target := ChooseTarget(isEditing, editingId);
      sent := newRecord;
      if !ok {
        alert := "Error Saving Record!";
        return;
      }
      alert := if target.Update? then "Record Updated!" else "Record Added!";
      ResetForms();
      recordSubTab := ViewList;
    }

    /** `handleSaveBill()`; `now` stands for the payment date the clock gives. */
    method HandleSaveBill(ok: bool, now: string) returns (target: SaveTarget, payload: BillPayload, alert: string)
      requires Valid()
      modifies this`isEditing, this`editingId, this`newPatient, this`newAppointment, this`newRecord, this`newBill,
               this`billingSubTab
      ensures Valid()
      ensures target == ChooseTarget(old(isEditing), old(editingId))
      ensures payload == BillPayloadOf(old(newBill), now)
      ensures ok ==> alert == (if target.Update? then "Bill Updated!" else "Bill Created!")
      ensures ok ==> FormsReset() && billingSubTab == ViewList
      ensures !ok ==> alert == "Error Saving Bill!" && unchanged(this)
    {
      target := ChooseTarget(isEditing, editingId);
      payload := BillPayloadOf(newBill, now);
      if !ok {
        alert := "Error Saving Bill!";
        return;
      }
      alert := if target.Update? then "Bill Updated!" else "Bill Created!";
      ResetForms();
      billingSubTab := ViewList;
    }

    /** `startEditPatient(p)`. */
    method StartEditPatient(p: Patient)
      requires Valid()
      modifies this`newPatient, this`isEditing, this`editingId, this`patientSubTab
      ensures Valid()
      ensures newPatient == p && isEditing && editingId == p.id && patientSubTab == AddForm
    {
      newPatient, isEditing, editingId, patientSubTab := p, true, p.id, AddForm;
    }

    /** `startEditRecord(r)`: the doctor id is always "1". */
    method StartEditRecord(r: MedicalRecord)
      requires Valid()
      modifies this`newRecord, this`isEditing, this`editingId, this`recordSubTab
      ensures Valid()
      ensures newRecord == RecordForm(OptionalIdText(RecordPatientIdOf(r)), "1", r.diagnosis, r.treatment, r.notes, r.recordDate)
      ensures isEditing && editingId == Some(r.id) && recordSubTab == AddForm
    {
      newRecord := RecordForm(OptionalIdText(RecordPatientIdOf(r)), "1", r.diagnosis, r.treatment, r.notes, r.recordDate);
      isEditing, editingId, recordSubTab := true, Some(r.id), AddForm;
    }

    /** `startEditBill(b)`. */
    method StartEditBill(b: Billing)
      requires Valid()
      modifies this`newBill, this`isEditing, this`editingId, this`billingSubTab
      ensures Valid()
      ensures newBill == BillForm(OptionalIdText(b.appointmentId), IntToString(b.amount), b.paymentMethod, b.status)
      ensures isEditing && editingId == Some(b.billId) && billingSubTab == AddForm
    {
      newBill := BillForm(OptionalIdText(b.appointmentId), IntToString(b.amount), b.paymentMethod, b.status);
      isEditing, editingId, billingSubTab := true, Some(b.billId), AddForm;
    }

    /** `startConsultation(p)`: the record form is pre-filled with the
        patient's and the doctor's ids and today's date. */
    method StartConsultation(p: Patient, today: string)
      requires Valid()
      modifies this`currentPatient, this`activeTab, this`newRecord
      ensures Valid()
      ensures currentPatient == Some(p) && activeTab == CurrentPatientTab
      ensures newRecord == RecordForm(OptionalIdText(p.id), OptionalIdText(doctorId), "", "", "", today)
    {
      currentPatient, activeTab := Some(p), CurrentPatientTab;
      newRecord := RecordForm(OptionalIdText(p.id), OptionalIdText(doctorId), "", "", "", today);
    }

    /** `finishConsultation()`: without a diagnosis and a treatment nothing
        is posted; a saved record ends the consultation, resets the forms and
        returns to the patients tab; a failed post changes nothing. */
    method FinishConsultation(ok: bool) returns (posted: Option<RecordForm>, alert: string)
      requires Valid()
      modifies this`currentPatient, this`activeTab, this`isEditing, this`editingId,
               this`newPatient, this`newAppointment, this`newRecord, this`newBill
      ensures Valid()
      ensures var guarded := old(newRecord).diagnosis == "" || old(newRecord).treatment == "";
        && (guarded ==> posted.None? && alert == "Please enter diagnosis and treatment!")
        && (!guarded ==> posted == Some(old(newRecord)))
      ensures posted.None? || !ok ==> unchanged(this)
      ensures posted.Some? && !ok ==> alert == "Error Saving Record!"
      ensures posted.Some? && ok ==>
        && alert == "Consultation Finished & Record Saved!"
        && currentPatient.None? && activeTab == PatientsTab && FormsReset()
    {
      if newRecord.diagnosis == "" || newRecord.treatment == "" {
        posted, alert := None, "Please enter diagnosis and treatment!";
        return;
      }
      posted := Some(newRecord);
      if !ok {
        alert := "Error Saving Record!";
        return;
      }
      alert := "Consultation Finished & Record Saved!";
      currentPatient := None;
      ResetForms();
      activeTab := PatientsTab;
    }
  }
}
