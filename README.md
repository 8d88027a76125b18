# Clinic management: booking, roster and session logic

A Dafny model of the decision logic in a clinic-management web application. The front end is written in React/TypeScript. The back end is a Spring service that saves duty rosters. The model covers six pieces:

- **Patient dashboard.** The 15-minute slot catalogue for 09:00–17:00. Whether a slot is taken for a chosen doctor and date. The booking draft and how it changes. The booking submission. The patient's own appointment and record lists.
- **Roster service.** `saveRoster` maps a shift name to working hours and upserts by (doctor, date). `getRosterByDoctor` lists a doctor's rows.
- **Doctor dashboard.** The 30-day default roster and its edits. The income total. The cleaned doctor name. The choice between create and update when saving, and the payloads sent. The roster labels and CSS classes. The Accept/Reject gate. The consultation flow and the form reset.
- **Home page.** Which role is signed in (patient before doctor before admin). The name shown. Where "My Health" leads. The doctors and appointments the page fetches. Logout.
- **Request interceptor.** Bearer-token selection (doctor before admin before patient) and the `Authorization` header.
- **Admin login.** The fixed admin/admin credential check.

Each view's state is a class. Its fields are the component's state, and its methods are the event handlers. A `Valid()` predicate holds the view's invariant:
- **Patient dashboard:** the chosen time is empty or a free slot for the current doctor and date.
- **Home page:** "My Health" agrees with the role shown.
- **Doctor dashboard:** the roster spans 30 consecutive days, and the income equals the listed bills.

Network responses, the clock and `localStorage` are parameters of these methods. A stored blob (`Session.StoredItem`) is missing, empty, unparsable, or a parsed record. Dates in the doctor's roster are day numbers. The roster repository is a sequence of rows plus the next identity value.

The proofs show two properties of the code as written:
- The slot check compares statuses exactly (src/views/PatientDashboard.tsx:140) with "Cancelled" and "Rejected". The doctor dashboard writes "REJECTED". So an appointment the doctor rejected keeps its slot taken (`PatientDashboard.DoctorRejectionStillBlocks`).
- The Home page and the interceptor read the login blobs in opposite orders. With a patient and a doctor both stored, the page shows the patient, but requests carry the doctor's token (`AuthToken.HomeAndTokenDisagree`).

Smaller properties of the code:
- The title pattern has no word boundary, so "Drew Silva" loses its "Dr" (`DoctorDashboard.StripDrNoWordBoundary`).
- A stored patient whose id is absent is shown every appointment that has no patient (`PatientDashboard.MissingIdMatchesOrphans`).
- None of the four statuses the roster table holds is a shift name the backend accepts. The front end's roster save only logs them, but each would be refused if sent (`RosterService.DashboardStatusesRefused`).
- The booking form never re-checks the chosen slot on submit. The model proves that, under the view's invariant, the slot sent is still free in the current snapshot (`PatientDashboard.PatientDashboardView.HandleBookAppointment`).

Files:
- `common.dfy`: `Option` and the JavaScript string operations used by the views.
- `appointments.dfy`: the backend records and the appointment payload.
- `slots.dfy`: the slot catalogue.
- `session.dfy`: the stored login blobs.
- `patient_dashboard.dfy`, `roster_service.dfy`, `doctor_dashboard.dfy`, `home.dfy`, `auth_token.dfy`, `admin_login.dfy`: one file per component.

## Model

| member | source | states |
|---|---|---|
| `Common.OrElse` | src/api/axios.Config.ts:22 | `a \|\| b` gives `a` when it is truthy, otherwise `b` |
| `Common.Take` | src/views/PatientDashboard.tsx:138 | `substring(0, n)` is the prefix of length min(n, length) |
| `Common.FirstWord` | src/views/Home.tsx:54 | `split(' ')[0]` is a space-free prefix, followed by a space or by the end |
| `Common.Filter` | src/views/PatientDashboard.tsx:109 | `filter` keeps exactly the elements that pass and never grows the list |
| `Common.FilterAppend` | src/views/PatientDashboard.tsx:109 | filtering distributes over concatenation, so the original order is kept |
| `Common.ParseInt` | src/views/PatientDashboard.tsx:136 | `parseInt` is NaN exactly when no digit follows the optional sign |
| `Common.ParseIntOfNatToString` | src/views/PatientDashboard.tsx:136 | a doctor id's text parses back to the id |
| `Common.ToUpper` | src/views/DoctorDashboard.tsx:747 | upper-casing keeps the length and maps every character |
| `Common.WhitespaceEnd` | src/views/DoctorDashboard.tsx:124 | `\s*` matched greedily from a position consumes only white space and stops at the first other character |
| `Common.StripDrPrefixSpec` | src/views/DoctorDashboard.tsx:124 | the title pattern leaves names without a leading "dr" unchanged; otherwise it removes the leftmost-longest match of `Dr`, optional `.` and white space, and the rest does not start with white space |
| `Appointments.CombinedDateTimeSplits` | src/views/PatientDashboard.tsx:155-162 | the combined `dateTtime:00` splits back into the date and the payload time |
| `Slots.SlotLabelShape` | src/views/PatientDashboard.tsx:70-72 | each label is five characters `HH:MM`, zero-padded below ten o'clock, with minutes "00", "15", "30" or "45", and it reads back as its time |
| `Slots.CatalogueLength` | src/views/PatientDashboard.tsx:68-69 | the catalogue holds four slots per hour of the interval, and none for an empty interval |
| `Slots.CatalogueAt` | src/views/PatientDashboard.tsx:68-72 | slot i is minute 15·(i mod 4) of hour start + i div 4 |
| `Slots.CatalogueTimes` | src/views/PatientDashboard.tsx:65-78 | slot i is at start·60 + 15·i minutes: strictly ascending at 15-minute spacing, for intervals ending by hour 100 |
| `Slots.CatalogueDistinct` | src/views/PatientDashboard.tsx:65-78 | no slot occurs twice, for intervals ending by hour 100 |
| `Slots.BusinessDayEnds` | src/views/PatientDashboard.tsx:76 | the 09:00–17:00 catalogue has 32 slots, from "09:00" to "16:45" |
| `Slots.AddSlots` | src/views/PatientDashboard.tsx:67-75 | the nested loops push exactly the catalogue of the interval |
| `Slots.GenerateTimeSlots` | src/views/PatientDashboard.tsx:65-79 | 32 `HH:MM` slots from "09:00" to "16:45", ascending and free of duplicates |
| `PatientDashboard.AnyHoldsSlot` | src/views/PatientDashboard.tsx:135-143 | `some` is true exactly when some appointment matches doctor, date, time prefix and active status |
| `PatientDashboard.IsSlotBooked` | src/views/PatientDashboard.tsx:132-144 | never booked without a doctor or a date; otherwise booked exactly when an appointment in the snapshot holds the slot |
| `PatientDashboard.NonHolderIrrelevant` | src/views/PatientDashboard.tsx:135-143 | another doctor's, another date's, another time's or a freed appointment never changes availability |
| `PatientDashboard.CancellingFrees` | src/views/PatientDashboard.tsx:140 | cancelling the only holder of a slot frees it |
| `PatientDashboard.SampleBlocksOnlyNine` | src/views/PatientDashboard.tsx:132-144 | one Pending booking at 09:00 with doctor 5 takes exactly slot "09:00" of the 32 |
| `PatientDashboard.SampleMismatchesFree` | src/views/PatientDashboard.tsx:136-140 | for another doctor, another date, or a cancelled booking, all slots are free |
| `PatientDashboard.DoctorRejectionStillBlocks` | src/views/PatientDashboard.tsx:140 | a booking with status "REJECTED" still takes its slot |
| `PatientDashboard.BookingTakesItsSlot` | src/views/PatientDashboard.tsx:155-165 | a booked catalogue slot, once stored, is taken for that doctor and date, and its combined date-time splits back |
| `PatientDashboard.OwnAppointments` | src/views/PatientDashboard.tsx:109 | the patient's list is exactly the snapshot's appointments whose patient id equals the patient's |
| `PatientDashboard.OwnRecords` | src/views/PatientDashboard.tsx:113 | the same for medical records |
| `PatientDashboard.OwnAppointmentsAppend` | src/views/PatientDashboard.tsx:178 | the patient's list keeps the snapshot order |
| `PatientDashboard.MissingIdMatchesOrphans` | src/views/PatientDashboard.tsx:109 | with the stored patient's id absent (`undefined`), appointments without a patient id are included |
| `PatientDashboard.PatientDashboardView.constructor` | src/views/PatientDashboard.tsx:90-129 | no stored patient redirects to the login page and loading never ends; the fetches stop at the first failure, except that a failed doctors fetch only leaves that list empty |
| `PatientDashboard.PatientDashboardView.SelectDoctor` | src/views/PatientDashboard.tsx:320 | the doctor changes and the time is cleared; the other fields are kept |
| `PatientDashboard.PatientDashboardView.SelectDate` | src/views/PatientDashboard.tsx:339 | the date changes and the time is cleared; the other fields are kept |
| `PatientDashboard.PatientDashboardView.EditNotes` | src/views/PatientDashboard.tsx:401 | only the notes change |
| `PatientDashboard.PatientDashboardView.ToggleBookingForm` | src/views/PatientDashboard.tsx:296 | the form is shown or hidden, and the draft is kept |
| `PatientDashboard.PatientDashboardView.ClickSlot` | src/views/PatientDashboard.tsx:353-361 | a slot is chosen exactly when its button is rendered (page loaded with a patient, booking form open, doctor and date chosen) and enabled; the draft changes only then |
| `PatientDashboard.PatientDashboardView.HandleBookAppointment` | src/views/PatientDashboard.tsx:147-189 | the guard sends nothing; the payload ends in ":00" and has status "Pending"; what is sent is free; success empties the draft and refreshes the patient's list; failure keeps the draft |
| `RosterService.ShiftTimesSpec` | Clinic_Management_System/service/impl/RosterServiceImpl.java:23-47 | exactly the four names are accepted; hours 09–17, 09–13, 13–17, or none for "Off"; the hours determine the name |
| `RosterService.DashboardStatusesRefused` | Clinic_Management_System/service/impl/RosterServiceImpl.java:45-46 | "DUTY", "HALFDAY-MORNING", "HALFDAY-EVENING" and "OFF" would all be refused if sent |
| `RosterService.FindByDoctorIdAndDate` | Clinic_Management_System/service/impl/RosterServiceImpl.java:50-52 | the lookup finds no row, the only matching row, or reports several |
| `RosterService.SaveRefusesBadRequests` | Clinic_Management_System/service/impl/RosterServiceImpl.java:23-47 | a null or unknown shift name, or a null doctor, fails with the store unchanged |
| `RosterService.SaveValidRequest` | Clinic_Management_System/service/impl/RosterServiceImpl.java:50-73 | an existing row gets only its name and hours overwritten and keeps id, doctor, date and position; otherwise exactly one new row is appended |
| `RosterService.SavePreservesInvariant` | Clinic_Management_System/service/impl/RosterServiceImpl.java:20-74 | unique keys, unique ids below the next id, and hours matching the name all survive a save |
| `RosterService.SavePreservesUniqueKeys` | Clinic_Management_System/service/impl/RosterServiceImpl.java:50-73 | on any store whose (doctor, date) keys are unique, they stay unique after a save, with nothing else assumed |
| `RosterService.SaveCurrentShift` | Clinic_Management_System/service/impl/RosterServiceImpl.java:54-64 | re-saving the current shift of the only row for a key changes nothing and returns that row |
| `RosterService.SaveIdempotent` | Clinic_Management_System/service/impl/RosterServiceImpl.java:20-74 | on every store, saving twice gives the same store and result as saving once |
| `RosterService.RowsOfDoctor` | Clinic_Management_System/service/impl/RosterServiceImpl.java:77-79 | exactly the rows with the doctor's id |
| `RosterService.SavedShiftListed` | Clinic_Management_System/service/impl/RosterServiceImpl.java:50-79 | on a store with unique keys, after a save the doctor's list holds the saved row and no other row for that date |
| `RosterService.GetAvailableSlots` | Clinic_Management_System/service/impl/RosterServiceImpl.java:82-85 | always fails as unsupported |
| `RosterService.RosterServiceImpl.SaveRoster` | Clinic_Management_System/service/impl/RosterServiceImpl.java:20-74 | the new store and the outcome are those of `Save`, and the store invariant is kept |
| `RosterService.RosterServiceImpl.GetRosterByDoctor` | Clinic_Management_System/service/impl/RosterServiceImpl.java:77-79 | returns exactly the doctor's rows |
| `DoctorDashboard.GenerateNext30Days` | src/views/DoctorDashboard.tsx:71-82 | 30 entries, each "OFF", on the consecutive days from today |
| `DoctorDashboard.ChangeRoster` | src/views/DoctorDashboard.tsx:171-175 | same length, order and dates; entries on the date get the status; the others are unchanged |
| `DoctorDashboard.ChangeRosterLastWins` | src/views/DoctorDashboard.tsx:171-175 | the later change for a day overrides the earlier one |
| `DoctorDashboard.ChangeRosterCommutes` | src/views/DoctorDashboard.tsx:171-175 | changes to different days commute |
| `DoctorDashboard.RosterPresentationAgrees` | src/views/DoctorDashboard.tsx:537-543 | preview label, colour and table class agree; the four select values get four labels, and anything else shows "Off" |
| `DoctorDashboard.Preview` | src/views/DoctorDashboard.tsx:537-543 | the labels of the first 15 days only |
| `DoctorDashboard.DefaultPreviewAllOff` | src/views/DoctorDashboard.tsx:537 | the default roster previews 15 days off |
| `DoctorDashboard.ReduceIsSum` | src/views/DoctorDashboard.tsx:149 | the left fold from `acc` is `acc` plus the sum of the amounts |
| `DoctorDashboard.IncomeSpec` | src/views/DoctorDashboard.tsx:149-150 | income is the sum of the amounts: 0 with no bills, additive over concatenation, and at least each amount when none is negative |
| `DoctorDashboard.DoctorNameOf` | src/views/DoctorDashboard.tsx:122-125 | `name`, or else `username`, with the title removed; "" when neither is present |
| `DoctorDashboard.StripDrTitle` | src/views/DoctorDashboard.tsx:124 | "Dr. Silva" becomes "Silva" |
| `DoctorDashboard.StripDrNoWordBoundary` | src/views/DoctorDashboard.tsx:124 | "Drew Silva" becomes "ew Silva" |
| `DoctorDashboard.ChooseTarget` | src/views/DoctorDashboard.tsx:225 | update exactly when editing with a present, non-zero id; otherwise create |
| `DoctorDashboard.DoctorPayloadSpec` | src/views/DoctorDashboard.tsx:222-223 | the form fields are kept, the time gets ":00", the status is "SCHEDULED", and the combined date-time splits back |
| `DoctorDashboard.OptionalIdText` | src/views/DoctorDashboard.tsx:423-424 | `id?.toString() \|\| ''` is "" exactly for a missing id, and otherwise parses back to the id |
| `DoctorDashboard.IntToStringParses` | src/views/DoctorDashboard.tsx:329 | a number's text is non-empty and parses back to the number |
| `DoctorDashboard.DecisionActions` | src/views/DoctorDashboard.tsx:752-755 | Accept/Reject are offered exactly when the upper-cased status is "PENDING", and they request "APPROVED" and "REJECTED" |
| `DoctorDashboard.PendingOffersDecision` | src/views/DoctorDashboard.tsx:752-755 | every seven-letter mixed-case spelling of "pending" (so the patient's "Pending") is offered Accept/Reject and shown orange |
| `DoctorDashboard.DecidedOffersNothing` | src/views/DoctorDashboard.tsx:747-755 | after either decision no buttons remain; the colour is green or red |
| `DoctorDashboard.ScheduledOffersNothing` | src/views/DoctorDashboard.tsx:747-755 | a doctor-created "SCHEDULED" appointment is never offered a decision |
| `DoctorDashboard.StatusUpdateRequest` | src/views/DoctorDashboard.tsx:241-245 | a request is made exactly when the doctor confirms, to `/appointments/{id}/status?status=...` |
| `DoctorDashboard.DoctorDashboardView.constructor` | src/views/DoctorDashboard.tsx:113-132 | the doctor id and clean name come from the stored blob, which is left unset on a parse failure; the default roster is set |
| `DoctorDashboard.DoctorDashboardView.ResetForms` | src/views/DoctorDashboard.tsx:161-168 | edit mode is off and every form is at its default; the bill defaults to CASH/PAID |
| `DoctorDashboard.DoctorDashboardView.HandleRosterChange` | src/views/DoctorDashboard.tsx:171-175 | the roster becomes `ChangeRoster` of the old roster |
| `DoctorDashboard.DoctorDashboardView.FetchData` | src/views/DoctorDashboard.tsx:135-154 | lists are set in order up to the first failure, and the income follows the bills |
| `DoctorDashboard.DoctorDashboardView.HandleSaveAppointment` | src/views/DoctorDashboard.tsx:220-236 | the target and the "SCHEDULED" payload; success gives the matching alert, resets all four forms and the edit state, and shows the list; failure alerts and leaves every field unchanged |
| `DoctorDashboard.DoctorDashboardView.HandleSavePatient` | src/views/DoctorDashboard.tsx:188-201 | the target and the patient form sent; success gives the matching alert, resets all four forms and the edit state, and shows the list; failure alerts and leaves every field unchanged |
| `DoctorDashboard.DoctorDashboardView.HandleSaveRecord` | src/views/DoctorDashboard.tsx:255-270 | the target and the record form sent; success gives the matching alert, resets all four forms and the edit state, and shows the list; failure alerts and leaves every field unchanged |
| `DoctorDashboard.DoctorDashboardView.HandleSaveBill` | src/views/DoctorDashboard.tsx:295-316 | the target and the bill payload, with the payment date from the clock; success gives the matching alert, resets all four forms and the edit state, and shows the list; failure alerts and leaves every field unchanged |
| `DoctorDashboard.DoctorDashboardView.StartEditPatient` | src/views/DoctorDashboard.tsx:212-217 | form, edit mode, edit id and sub-tab are set |
| `DoctorDashboard.DoctorDashboardView.StartEditRecord` | src/views/DoctorDashboard.tsx:280-292 | the record form is filled, with doctor id "1" |
| `DoctorDashboard.DoctorDashboardView.StartEditBill` | src/views/DoctorDashboard.tsx:326-336 | the bill form is filled from the bill |
| `DoctorDashboard.DoctorDashboardView.StartConsultation` | src/views/DoctorDashboard.tsx:418-430 | the record form is pre-filled with the patient's id, the doctor's id and today's date |
| `DoctorDashboard.DoctorDashboardView.FinishConsultation` | src/views/DoctorDashboard.tsx:432-449 | without a diagnosis and a treatment only an alert is shown; otherwise the record form is posted; a save ends the consultation, resets all four forms and the edit state, and goes to the patients tab; a guarded or failed post leaves every field unchanged |
| `Home.DisplayNamesSpec` | src/views/Home.tsx:52-59 | the shown name is the first space-free word of the (title-stripped) name, else "Doctor" or "Admin" |
| `Home.ResolveSessionSpec` | src/views/Home.tsx:47-60 | the first present blob decides, patient before doctor before admin; later blobs are never read; only a patient gets a user id; no blob sets nothing |
| `Home.RouteAgreesWithRole` | src/views/Home.tsx:118-135 | "My Health" leads to the dashboard of the resolved role, or to the login page |
| `Home.FirstThree` | src/views/Home.tsx:78 | at most three doctors, as a prefix of the list |
| `Home.HomeAppointments` | src/views/Home.tsx:87 | exactly the appointments whose patient has the user id |
| `Home.HomeMatchesDashboard` | src/views/Home.tsx:87 | the home list equals the patient dashboard's list for that id |
| `Home.HomeView.constructor` | src/views/Home.tsx:41-67 | sets name, role and id from the resolved session; a parse failure clears the storage |
| `Home.HomeView.FetchHomeData` | src/views/Home.tsx:72-98 | keeps the first three doctors; fetches appointments only for a patient with a truthy id; loading ends |
| `Home.HomeView.MyHealthClick` | src/views/Home.tsx:118-135 | the route agrees with the role shown |
| `Home.HomeView.HandleLogout` | src/views/Home.tsx:108-115 | storage, name, role, id and appointments are cleared, and the route is the patient login |
| `AuthToken.SelectTokenSpec` | src/api/axios.Config.ts:16-31 | a present doctor blob alone decides, then admin, then patient, each giving its own token; a present blob without a token still wins; only the doctor blob falls back to `accessToken`; the request is rejected exactly when the first present blob does not parse |
| `AuthToken.HomeAndTokenDisagree` | src/api/axios.Config.ts:19-31 | with patient and doctor blobs, the page shows the patient while requests carry the doctor's token |
| `AuthToken.Intercept` | src/api/axios.Config.ts:34-38 | `Authorization: Bearer <token>` is set exactly when the token is truthy, the other headers are untouched, and the same config is passed on |
| `AdminLogin.CredentialsAreExact` | src/views/AdminLogIn.tsx:28 | the login condition holds exactly for admin/admin, and refuses a capital letter or a surrounding space |
| `AdminLogin.AdminLoginView.constructor` | src/views/AdminLogIn.tsx:12-14 | empty fields and no error |
| `AdminLogin.AdminLoginView.EnterUsername` | src/views/AdminLogIn.tsx:70 | only the username changes |
| `AdminLogin.AdminLoginView.EnterPassword` | src/views/AdminLogIn.tsx:81 | only the password changes |
| `AdminLogin.AdminLoginView.HandleLogin` | src/views/AdminLogIn.tsx:19-35 | success exactly when the login condition holds, asking for 'adminDashboard' with the error empty; otherwise the error message is set and no view is asked for |

## Left out

- Network calls: each response is a parameter. It is either a list or a failure, and for a booking one of three outcomes. axios itself is not modelled.
- Races between fetches, and fetch calls that are not awaited. The `fetchData` calls after a save and the re-fetch on every tab change are modelled as separate `FetchData` calls.
- The clock: "today" is a parameter. ISO date strings are day numbers in the doctor's roster, and opaque strings elsewhere. The date picker's `min={today}` bound is browser-side and is not modelled.
- All JSX, styling, slider classes and `getTitle`. Invoice printing (`printBill`) and `toFixed` money formatting. Billing amounts are integers.
- The front-end `saveRoster` only logs and alerts. The delete handlers (`handleDeletePatient`, `handleDeleteRecord`, `handleDeleteBill`) and the doctor's `handleLogout` are thin wrappers around a request and are not modelled.
- `src/App.tsx` is not part of this model. Its `handleSetViewMode` has no route for 'adminDashboard', so a successful admin login asks for a view that the routed app ignores.
- Common.ParseInt: does not model leading white space, a `0x` prefix or `Infinity`. The doctor id it parses comes from a `<select>` option holding a number.
- Common.ToUpper: maps only the characters whose upper case is one ASCII letter (a–z, dotless i, long s). Other characters keep their value. This is exact for every comparison the views make, which are against ASCII targets.
- Slots.CatalogueTimes: proved for intervals ending by hour 100. The labels are only `HH:MM` below that.
- Slots.CatalogueDistinct: proved under the same bound (intervals ending by hour 100). The source's single interval is 9–17.
- RosterService.Save: the incoming entity's own id is ignored, and a new row gets the next identity. JPA's merge-by-id on a detached entity is not modelled.
- `findByDoctorIdAndDate` is not in the shown repository interface. It is modelled as a Spring single-result query, which fails when several rows match.
- The `Roster` entity shown has no start or end time fields. The model gives rows the optional times that the service sets.
- RosterService.GetAvailableSlots: the source throws `UnsupportedOperationException`. The model only says that it fails.
- `JSON.parse` of a truthy but unreadable patient blob throws outside any `try` on the patient dashboard. The model leaves that state untouched.
- `Patient.id`: `null` and `undefined` ids are both `None`. `===` tells them apart, so with a stored `id: null` the code shows no appointment without a patient, while the model's `OwnAppointments` keeps them. `PatientDashboard.MissingIdMatchesOrphans` is about an absent (`undefined`) id.
- Logging (`console.log`, `console.error`, `System.out`) is not modelled.
- `saveRoster` in the Java service also sets the start and end times on the incoming `roster` object before it is saved or discarded. The model does not keep the request object, so that mutation is not modelled.
- Values of the wrong JavaScript type are not modelled: a numeric token, or a name that is not a string.
