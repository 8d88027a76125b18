/** The home page: who is signed in (from the stored login blobs, patient
    first, then doctor, then admin), the name shown for them, where
    "My Health" leads, the doctors and appointments fetched for the page,
    and logging out. */
module Home {
  import opened Common
  import opened Session
  import opened Appointments
  import PatientDashboard

  datatype Role = PatientRole | DoctorRole | AdminRole

  /** What `checkAuth` concludes: a signed-in user; no login blob at all; or
      `JSON.parse` threw on the first blob it read, after which the whole
      storage is cleared. */
  datatype AuthResult = SignedIn(name: Option<string>, role: Role, userId: Option<int>) | NoSession | ParseFailed

  /** The doctor's shown name: the first word of the name without its
      title, or "Doctor" when there is no name. */
  function DoctorDisplayName(b: SessionBlob): string
  {
    if Truthy(b.name) then FirstWord(StripDrPrefix(b.name.value)) else "Doctor"
  }

  /** The admin's shown name: the first word of the name, or "Admin". */
  function AdminDisplayName(b: SessionBlob): string
  {
    if Truthy(b.name) then FirstWord(b.name.value) else "Admin"
  }

  /** The name shown is a single word taken from the front of the stored
      name (after the title, for a doctor): it holds no space, and what
      follows it in the name is empty or starts with a space. */
  lemma DisplayNamesSpec(b: SessionBlob)
    ensures Truthy(b.name) ==>
      var n := DoctorDisplayName(b);
      var full := StripDrPrefix(b.name.value);
      && (forall i :: 0 <= i < |n| ==> n[i] != ' ')
      && full[..|n|] == n && (|n| < |full| ==> full[|n|] == ' ')
    ensures Truthy(b.name) ==>
      var n := AdminDisplayName(b);
      && (forall i :: 0 <= i < |n| ==> n[i] != ' ')
      && b.name.value[..|n|] == n && (|n| < |b.name.value| ==> b.name.value[|n|] == ' ')
    ensures !Truthy(b.name) ==> DoctorDisplayName(b) == "Doctor" && AdminDisplayName(b) == "Admin"
  {
  }

  /** A blob's outcome once it is the one `checkAuth` reads. */
  function ReadBlob(item: StoredItem<SessionBlob>, role: Role): AuthResult
    requires Present(item)
  {
    if item.Unparsable? then ParseFailed
    else
      var b := item.value;
      match role
      case PatientRole => SignedIn(b.firstName, PatientRole, b.id)
      case DoctorRole => SignedIn(Some(DoctorDisplayName(b)), DoctorRole, None)
      case AdminRole => SignedIn(Some(AdminDisplayName(b)), AdminRole, None)
  }

  /** `checkAuth()`: the first blob present decides, patient before doctor
      before admin. */
  function ResolveSession(st: Storage): AuthResult
  {
    if Present(st.patientData) then ReadBlob(st.patientData, PatientRole)
    else if Present(st.doctorData) then ReadBlob(st.doctorData, DoctorRole)
    else if Present(st.adminData) then ReadBlob(st.adminData, AdminRole)
    else NoSession
  }

  /** Precedence: the role is the first present blob's, a later blob is
      never read when an earlier one is present (even one that fails to
      parse), only the patient role carries a user id, and with no blob
      present nothing is set. */
  lemma ResolveSessionSpec(st: Storage, other: Storage)
    ensures var r := ResolveSession(st);
      && (r.NoSession? <==> !Present(st.patientData) && !Present(st.doctorData) && !Present(st.adminData))
      && (r.SignedIn? && r.role == PatientRole <==> st.patientData.Parsed?)
      && (r.SignedIn? && r.role == DoctorRole <==> !Present(st.patientData) && st.doctorData.Parsed?)
      && (r.SignedIn? && r.role == AdminRole <==>
            !Present(st.patientData) && !Present(st.doctorData) && st.adminData.Parsed?)
      && (r.SignedIn? && r.userId.Some? ==> r.role == PatientRole)
      && (r.SignedIn? && r.role == PatientRole ==>
            r.name == st.patientData.value.firstName && r.userId == st.patientData.value.id)
    ensures Present(st.patientData) && other.patientData == st.patientData ==>
      ResolveSession(other) == ResolveSession(st)
    ensures (!Present(st.patientData) && Present(st.doctorData) &&
             !Present(other.patientData) && other.doctorData == st.doctorData) ==>
      ResolveSession(other) == ResolveSession(st)
  {
  }

  function DashboardRoute(role: Role): string
  {
    match role
    case PatientRole => "/patient-dashboard"
    case DoctorRole => "/doctor-dashboard"
    case AdminRole => "/admin-dashboard"
  }

  /** `handleMyHealthClick()`: the first key present, without parsing it. */
  function MyHealthRoute(st: Storage): string
  {
    if Present(st.patientData) then "/patient-dashboard"
    else if Present(st.doctorData) then "/doctor-dashboard"
    else if Present(st.adminData) then "/admin-dashboard"
    else "/patient-login"
  }

  /** "My Health" leads to the dashboard of the role `checkAuth` found, and
      to the login page when it found none; a blob that fails to parse is
      still followed (the route does not parse), but after `checkAuth` has
      cleared the storage the route is the login page too. */
  lemma RouteAgreesWithRole(st: Storage)
    ensures ResolveSession(st).SignedIn? ==> MyHealthRoute(st) == DashboardRoute(ResolveSession(st).role)
    ensures ResolveSession(st).NoSession? ==> MyHealthRoute(st) == "/patient-login"
    ensures ResolveSession(st).ParseFailed? ==>
      MyHealthRoute(st) != "/patient-login" && MyHealthRoute(Cleared) == "/patient-login"
  {
  }

  /** `doctorsRes.data.slice(0, 3)`. */
  function FirstThree(ds: seq<Doctor>): (r: seq<Doctor>)
    ensures |r| == if |ds| < 3 then |ds| else 3
    ensures r == ds[..|r|]
  {
    if |ds| <= 3 then ds else ds[..3]
  }

  /** `a.patient && a.patient.id === userId`. */
  predicate IsUsersAppointment(a: Appointment, userId: int)
  {
    a.patient.Some? && a.patient.value.id == Some(userId)
  }

  function HomeAppointments(apps: seq<Appointment>, userId: int): (r: seq<Appointment>)
    ensures forall a :: a in r <==> a in apps && IsUsersAppointment(a, userId)
  {
    Filter(apps, (a: Appointment) => IsUsersAppointment(a, userId))
  }

  /** For a user id, the home page and the patient dashboard list the same
      appointments in the same order, though one tests the patient object
      and the other uses optional chaining. */
  lemma {:induction false} HomeMatchesDashboard(apps: seq<Appointment>, userId: int)
    ensures HomeAppointments(apps, userId) == PatientDashboard.OwnAppointments(apps, Some(userId))
  {
    if apps != [] {
      HomeMatchesDashboard(apps[1..], userId);
      assert IsUsersAppointment(apps[0], userId) <==> PatientIdOf(apps[0]) == Some(userId);
    }
  }

  /** The page's state, with the browser storage it reads. */
  class HomeView {
    var storage: Storage
    var userName: Option<string>
    var userRole: Option<Role>
    var userId: Option<int>
    var doctors: seq<Doctor>
    var myAppointments: seq<Appointment>
    var isLoading: bool

    /** "My Health" agrees with the role shown, and only a patient has a
        user id. */
    ghost predicate Valid()
      reads this
    {
      && MyHealthRoute(storage) == (if userRole.Some? then DashboardRoute(userRole.value) else "/patient-login")
      && (userId.Some? ==> userRole == Some(PatientRole))
    }

    /** Mounting the page runs `checkAuth` on the browser's storage. */
    constructor (st: Storage)
      ensures Valid()
      ensures doctors == [] && myAppointments == [] && isLoading
      ensures match ResolveSession(st)
        case SignedIn(name, role, id) =>
          storage == st && userName == name && userRole == Some(role) && userId == id
        case NoSession =>
          storage == st && userName.None? && userRole.None? && userId.None?
        case ParseFailed =>
          storage == Cleared && userName.None? && userRole.None? && userId.None?
    {
      var r := ResolveSession(st);
      RouteAgreesWithRole(st);
      storage := if r.ParseFailed? then Cleared else st;
      userName := if r.SignedIn? then r.name else None;
      userRole := if r.SignedIn? then Some(r.role) else None;
      userId := if r.SignedIn? then r.userId else None;
      doctors, myAppointments, isLoading := [], [], true;
      ResolveSessionSpec(st, st);
    }

    /** `fetchHomeData()`: at most the first three doctors; the user's
        appointments only for a patient with a truthy id; loading ends
        whatever fails. */
    method FetchHomeData(doctorsFetch: Option<seq<Doctor>>, appointmentsFetch: Option<seq<Appointment>>)
      returns (askedForAppointments: bool)
      requires Valid()
      modifies this`doctors, this`myAppointments, this`isLoading
      ensures Valid() && !isLoading
      ensures doctors == if doctorsFetch.Some? then FirstThree(doctorsFetch.value) else old(doctors)
      ensures askedForAppointments <==> userRole == Some(PatientRole) && userId.Some? && userId.value != 0
      ensures myAppointments == if askedForAppointments && appointmentsFetch.Some?
                                then HomeAppointments(appointmentsFetch.value, userId.value) else old(myAppointments)
    {
      isLoading := true;
      if doctorsFetch.Some? {
        doctors := FirstThree(doctorsFetch.value);
      }
      askedForAppointments := userRole == Some(PatientRole) && userId.Some? && userId.value != 0;
      if askedForAppointments && appointmentsFetch.Some? {
        myAppointments := HomeAppointments(appointmentsFetch.value, userId.value);
      }
      isLoading := false;
    }

    /** `handleMyHealthClick()`. */
    method MyHealthClick() returns (route: string)
      requires Valid()
      ensures route == MyHealthRoute(storage)
      ensures route == if userRole.Some? then DashboardRoute(userRole.value) else "/patient-login"
    {
      route := MyHealthRoute(storage);
    }

    /** `handleLogout()`: the storage is cleared, the user forgotten, and the
        page leads to the patient login. */
    method HandleLogout() returns (route: string)
      requires Valid()
      modifies this`storage, this`userName, this`userRole, this`userId, this`myAppointments
      ensures Valid()
      ensures storage == Cleared && userName.None? && userRole.None? && userId.None? && myAppointments == []
      ensures route == "/patient-login"
    {
      storage := Cleared;
      userName, userRole, userId := None, None, None;
      myAppointments := [];
      route := "/patient-login";
    }
  }
}
