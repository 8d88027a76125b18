/** The backend roster service: saving a doctor's shift for a day (an
    upsert keyed by doctor and date, with the working hours the shift name
    implies) and listing a doctor's roster. The repository is a sequence of
    rows; `nextId` is the identity the database hands to the next new row. */
module RosterService {
  import opened Common

  datatype LocalTime = LocalTime(hour: nat, minute: nat)

  /** Days are numbered; the calendar is not modelled. */
  type Date = int

  /** The start and end of a shift; both absent on a day off. */
  datatype Times = Times(startTime: Option<LocalTime>, endTime: Option<LocalTime>)

  datatype Roster = Roster(id: int, doctorId: int, date: Date, shiftStatus: string,
                           startTime: Option<LocalTime>, endTime: Option<LocalTime>)

  /** The incoming entity: shift name and doctor may be null in Java. */
  datatype RosterRequest = RosterRequest(doctorId: Option<int>, date: Date, shiftStatus: Option<string>)

  /** Why `saveRoster` throws: `switch` on a null string and a null doctor
      raise `NullPointerException`, an unknown shift name raises
      `IllegalArgumentException("Invalid shift type")`, and a single-result
      repository query that matches several rows raises
      `IncorrectResultSizeDataAccessException`. */
  datatype Failure = NullShift | InvalidShift | NullDoctor | NonUniqueResult

  datatype Outcome = Saved(roster: Roster) | Failed(failure: Failure)

  function Clock(hour: nat): LocalTime
  {
    LocalTime(hour, 0)
  }

  function Minutes(t: LocalTime): nat
  {
    60 * t.hour + t.minute
  }

  /** The `switch` of `saveRoster`: the four shift names and their hours,
      matched exactly; any other name is refused. */
  function ShiftTimes(shift: string): Option<Times>
  {
    if shift == "Full Duty" then Some(Times(Some(Clock(9)), Some(Clock(17))))
    else if shift == "Morning" then Some(Times(Some(Clock(9)), Some(Clock(13))))
    else if shift == "Evening" then Some(Times(Some(Clock(13)), Some(Clock(17))))
    else if shift == "Off" then Some(Times(None, None))
    else None
  }

  predicate IsShiftName(shift: string)
  {
    shift == "Full Duty" || shift == "Morning" || shift == "Evening" || shift == "Off"
  }

  /** Reads the shift name back from its hours. */
  function ShiftOfTimes(t: Times): string
  {
    match t.startTime
    case None => "Off"
    case Some(s) =>
      if s == Clock(13) then "Evening"
      else if t.endTime == Some(Clock(13)) then "Morning"
      else "Full Duty"
  }

  /** The hours fully determine the shift: every accepted name reads back
      from its hours, so no two names share hours; exactly the four names are
      accepted; the day off is the one shift without hours; every working
      shift starts before it ends, inside 09:00 to 17:00; and the morning and
      evening halves together make up the full day. */
  lemma ShiftTimesSpec(shift: string)
    ensures ShiftTimes(shift).Some? <==> IsShiftName(shift)
    ensures ShiftTimes(shift).Some? ==> ShiftOfTimes(ShiftTimes(shift).value) == shift
    ensures ShiftTimes(shift).Some? ==>
      var t := ShiftTimes(shift).value;
      && (t.startTime.None? <==> shift == "Off")
      && (t.startTime.None? <==> t.endTime.None?)
      && (t.startTime.Some? ==>
            Minutes(Clock(9)) <= Minutes(t.startTime.value) < Minutes(t.endTime.value) <= Minutes(Clock(17)))
    ensures ShiftTimes("Morning").value.startTime == ShiftTimes("Full Duty").value.startTime
    ensures ShiftTimes("Morning").value.endTime == ShiftTimes("Evening").value.startTime
    ensures ShiftTimes("Evening").value.endTime == ShiftTimes("Full Duty").value.endTime
  {
  }

  /** The doctor dashboard's roster table holds the statuses "DUTY",
      "HALFDAY-MORNING", "HALFDAY-EVENING" and "OFF"; its save only logs
      them, and none of them is a shift name here, so each would be refused
      if it were sent. */
  lemma DashboardStatusesRefused()
    ensures ShiftTimes("DUTY").None? && ShiftTimes("HALFDAY-MORNING").None?
    ensures ShiftTimes("HALFDAY-EVENING").None? && ShiftTimes("OFF").None?
  {
    assert "OFF" != "Off" by { assert "OFF"[1] != "Off"[1]; }
  }

  predicate HasKey(r: Roster, doctorId: int, date: Date)
  {
    r.doctorId == doctorId && r.date == date
  }

  datatype Lookup = NotFound | Found(index: nat) | NonUnique

  /** `findByDoctorIdAndDate` as a single-result query: no row, the one
      matching row, or more than one. */
  function FindByDoctorIdAndDate(rows: seq<Roster>, doctorId: int, date: Date): (r: Lookup)
    ensures r.NotFound? <==> forall i :: 0 <= i < |rows| ==> !HasKey(rows[i], doctorId, date)
    ensures r.Found? ==>
      && r.index < |rows| && HasKey(rows[r.index], doctorId, date)
      && forall j :: 0 <= j < |rows| && j != r.index ==> !HasKey(rows[j], doctorId, date)
    ensures r.NonUnique? <==>
      exists i, j :: 0 <= i < j < |rows| && HasKey(rows[i], doctorId, date) && HasKey(rows[j], doctorId, date)
  {
    if rows == [] then NotFound
    else
      var last := |rows| - 1;
      var prefix := rows[..last];
      var earlier := FindByDoctorIdAndDate(prefix, doctorId, date);
      assert forall i :: 0 <= i < last ==> rows[i] == prefix[i];
      if !HasKey(rows[last], doctorId, date) then earlier
      else if earlier.NotFound? then Found(last)
      else
        assert earlier.Found? ==> HasKey(rows[earlier.index], doctorId, date);
        NonUnique
  }

  /** No two rows share a doctor and a date. */
  predicate UniqueKeys(rows: seq<Roster>)
  {
    forall i, j :: 0 <= i < j < |rows| ==>
      !(rows[i].doctorId == rows[j].doctorId && rows[i].date == rows[j].date)
  }

  /** Identities are distinct and below `nextId`, keys are unique, and
      every row carries the hours of its shift name. */
  predicate StoreInvariant(rows: seq<Roster>, nextId: int)
  {
    && (forall i :: 0 <= i < |rows| ==> rows[i].id < nextId)
    && (forall i, j :: 0 <= i < j < |rows| ==> rows[i].id != rows[j].id)
    && UniqueKeys(rows)
    && (forall i :: 0 <= i < |rows| ==>
          ShiftTimes(rows[i].shiftStatus) == Some(Times(rows[i].startTime, rows[i].endTime)))
  }

  datatype SaveResult = SaveResult(rows: seq<Roster>, nextId: int, outcome: Outcome)

  /** `saveRoster` on the repository state: first the shift name is
      checked and its hours fixed, then the doctor's row for that date is
      looked up; an existing row gets the new shift name and hours and keeps
      its identity, otherwise a new row is inserted. */
  function Save(rows: seq<Roster>, nextId: int, req: RosterRequest): SaveResult
  {
    if req.shiftStatus.None? then SaveResult(rows, nextId, Failed(NullShift))
    else
      match ShiftTimes(req.shiftStatus.value)
      case None => SaveResult(rows, nextId, Failed(InvalidShift))
      case Some(t) =>
        if req.doctorId.None? then SaveResult(rows, nextId, Failed(NullDoctor))
        else
          match FindByDoctorIdAndDate(rows, req.doctorId.value, req.date)
          case NonUnique => SaveResult(rows, nextId, Failed(NonUniqueResult))
          case Found(k) =>
            var row := rows[k].(shiftStatus := req.shiftStatus.value, startTime := t.startTime, endTime := t.endTime);
            SaveResult(rows[k := row], nextId, Saved(row))
          case NotFound =>
            var row := Roster(nextId, req.doctorId.value, req.date, req.shiftStatus.value, t.startTime, t.endTime);
            SaveResult(rows + [row], nextId + 1, Saved(row))
  }

  /** A request without a shift name, with an unknown one, or without a
      doctor fails and leaves the repository as it was. */
  lemma SaveRefusesBadRequests(rows: seq<Roster>, nextId: int, req: RosterRequest)
    requires req.shiftStatus.None? || !IsShiftName(req.shiftStatus.value) || req.doctorId.None?
    ensures var s := Save(rows, nextId, req);
      && s.rows == rows && s.nextId == nextId && s.outcome.Failed?
      && (req.shiftStatus.None? ==> s.outcome.failure == NullShift)
      && (req.shiftStatus.Some? && !IsShiftName(req.shiftStatus.value) ==> s.outcome.failure == InvalidShift)
  {
    if req.shiftStatus.Some? {
      ShiftTimesSpec(req.shiftStatus.value);
    }
  }

  /** On a store whose keys are unique, a valid request always succeeds:
      it either updates the doctor's row for that date in place (same
      identity, same position, nothing else changed) or appends one new row
      with the next identity. Either way the saved row carries the
      requested shift and its hours. */
  lemma SaveValidRequest(rows: seq<Roster>, nextId: int, req: RosterRequest)
    requires UniqueKeys(rows)
    requires req.shiftStatus.Some? && IsShiftName(req.shiftStatus.value) && req.doctorId.Some?
    ensures var s := Save(rows, nextId, req);
      var t := ShiftTimes(req.shiftStatus.value).value;
      && s.outcome.Saved?
      && HasKey(s.outcome.roster, req.doctorId.value, req.date)
      && s.outcome.roster.shiftStatus == req.shiftStatus.value
      && s.outcome.roster.startTime == t.startTime && s.outcome.roster.endTime == t.endTime
      && ((exists k :: 0 <= k < |rows| && HasKey(rows[k], req.doctorId.value, req.date)) ==>
            && |s.rows| == |rows| && s.nextId == nextId
            && forall i :: 0 <= i < |rows| ==>
                 if HasKey(rows[i], req.doctorId.value, req.date)
                 then s.rows[i] == s.outcome.roster && s.rows[i].id == rows[i].id
                 else s.rows[i] == rows[i])
      && ((forall k :: 0 <= k < |rows| ==> !HasKey(rows[k], req.doctorId.value, req.date)) ==>
            s.rows == rows + [s.outcome.roster] && s.outcome.roster.id == nextId && s.nextId == nextId + 1)
  {
    ShiftTimesSpec(req.shiftStatus.value);
  }

  /** Saving never makes two rows share a doctor and a date, whatever
      else holds of the store. */
  lemma SavePreservesUniqueKeys(rows: seq<Roster>, nextId: int, req: RosterRequest)
    requires UniqueKeys(rows)
    ensures UniqueKeys(Save(rows, nextId, req).rows)
  {
    var s := Save(rows, nextId, req);
    if s.outcome.Saved? {
      var look := FindByDoctorIdAndDate(rows, req.doctorId.value, req.date);
      if look.NotFound? {
        assert s.rows == rows + [s.outcome.roster];
        forall i, j | 0 <= i < j < |s.rows|
          ensures !(s.rows[i].doctorId == s.rows[j].doctorId && s.rows[i].date == s.rows[j].date)
        {
          if j == |rows| {
            assert !HasKey(rows[i], req.doctorId.value, req.date);
          }
        }
      }
    }
  }

  /** Saving keeps the store invariant. */
  lemma SavePreservesInvariant(rows: seq<Roster>, nextId: int, req: RosterRequest)
    requires StoreInvariant(rows, nextId)
    ensures var s := Save(rows, nextId, req); StoreInvariant(s.rows, s.nextId)
  {
    SavePreservesUniqueKeys(rows, nextId, req);
    var s := Save(rows, nextId, req);
    if s.outcome.Saved? {
      ShiftTimesSpec(req.shiftStatus.value);
    }
  }

  /** A request that names the shift the only row for its key already
      carries changes nothing and returns that row. */
  lemma SaveCurrentShift(rows: seq<Roster>, nextId: int, req: RosterRequest, k: nat)
    requires req.shiftStatus.Some? && IsShiftName(req.shiftStatus.value) && req.doctorId.Some?
    requires k < |rows| && HasKey(rows[k], req.doctorId.value, req.date)
    requires forall j :: 0 <= j < |rows| && j != k ==> !HasKey(rows[j], req.doctorId.value, req.date)
    requires rows[k].shiftStatus == req.shiftStatus.value
    requires Some(Times(rows[k].startTime, rows[k].endTime)) == ShiftTimes(req.shiftStatus.value)
    ensures Save(rows, nextId, req) == SaveResult(rows, nextId, Saved(rows[k]))
  {
    ShiftTimesSpec(req.shiftStatus.value);
    var look := FindByDoctorIdAndDate(rows, req.doctorId.value, req.date);
    assert look == Found(k);
    assert rows[k := rows[k]] == rows;
  }

  /** Saving the same request twice leaves the store as saving it once,
      on any store. */
  lemma SaveIdempotent(rows: seq<Roster>, nextId: int, req: RosterRequest)
    ensures var once := Save(rows, nextId, req);
      Save(once.rows, once.nextId, req) == once
  {
    var once := Save(rows, nextId, req);
    if once.outcome.Saved? {
      ShiftTimesSpec(req.shiftStatus.value);
      var d := req.doctorId.value;
      var look := FindByDoctorIdAndDate(rows, d, req.date);
      var k := if look.Found? then look.index else |rows|;
      assert once.rows[k] == once.outcome.roster;
      assert forall j :: 0 <= j < |once.rows| && j != k ==> once.rows[j] == rows[j];
      SaveCurrentShift(once.rows, once.nextId, req, k);
    }
  }

  /** `findByDoctorId`: the doctor's rows, in repository order. */
  function RowsOfDoctor(rows: seq<Roster>, doctorId: int): (r: seq<Roster>)
    ensures forall x :: x in r <==> x in rows && x.doctorId == doctorId
  {
    Filter(rows, (x: Roster) => x.doctorId == doctorId)
  }

  /** After a successful save, the doctor's roster lists the saved shift for
      that date and no other row for that date. */
  lemma SavedShiftListed(rows: seq<Roster>, nextId: int, req: RosterRequest)
    requires UniqueKeys(rows)
    requires Save(rows, nextId, req).outcome.Saved?
    ensures var s := Save(rows, nextId, req);
      && s.outcome.roster in RowsOfDoctor(s.rows, req.doctorId.value)
      && forall x :: x in RowsOfDoctor(s.rows, req.doctorId.value) && x.date == req.date ==> x == s.outcome.roster
  {
    var s := Save(rows, nextId, req);
    SaveValidRequest(rows, nextId, req);
    SavePreservesUniqueKeys(rows, nextId, req);
    var d := req.doctorId.value;
    var look := FindByDoctorIdAndDate(rows, d, req.date);
    var k := if look.Found? then look.index else |rows|;
    assert s.rows[k] == s.outcome.roster;
    forall x | x in RowsOfDoctor(s.rows, d) && x.date == req.date
      ensures x == s.outcome.roster
    {
      var i :| 0 <= i < |s.rows| && s.rows[i] == x;
      assert HasKey(s.rows[i], d, req.date) && HasKey(s.rows[k], d, req.date);
    }
  }

  /** `getAvailableSlots` is not implemented: it always throws. */
  datatype SlotsResult = Slots(times: seq<LocalTime>) | Unsupported

  function GetAvailableSlots(doctorId: int, date: Date): (r: SlotsResult)
    ensures r.Unsupported?
  {
    Unsupported
  }

  class RosterServiceImpl {
    var rows: seq<Roster>
    var nextId: int

    ghost predicate Valid()
      reads this
    {
      StoreInvariant(rows, nextId)
    }

    /** An empty repository. */
    constructor ()
      ensures Valid() && rows == [] && nextId == 1
    {
      rows, nextId := [], 1;
    }

    /** `saveRoster(roster)`. */
    method SaveRoster(req: RosterRequest) returns (outcome: Outcome)
      requires Valid()
      modifies this
      ensures Valid()
      ensures Save(old(rows), old(nextId), req) == SaveResult(rows, nextId, outcome)
    {
      SavePreservesInvariant(rows, nextId, req);
      if req.shiftStatus.None? {
        return Failed(NullShift);
      }
      var shift := req.shiftStatus.value;
      var times := ShiftTimes(shift);
      if times.None? {
        return Failed(InvalidShift);
      }
      if req.doctorId.None? {
        return Failed(NullDoctor);
      }
      var existing := FindByDoctorIdAndDate(rows, req.doctorId.value, req.date);
      match existing {
        case NonUnique =>
          outcome := Failed(NonUniqueResult);
        case Found(k) =>
          var row := rows[k].(shiftStatus := shift, startTime := times.value.startTime, endTime := times.value.endTime);
          rows := rows[k := row];
          outcome := Saved(row);
        case NotFound =>
          var row := Roster(nextId, req.doctorId.value, req.date, shift, times.value.startTime, times.value.endTime);
          rows := rows + [row];
          nextId := nextId + 1;
          outcome := Saved(row);
      }
    }

    /** `getRosterByDoctor(doctorId)`. */
    method GetRosterByDoctor(doctorId: int) returns (list: seq<Roster>)
      ensures list == RowsOfDoctor(rows, doctorId)
      ensures forall x :: x in list <==> x in rows && x.doctorId == doctorId
    {
      list := RowsOfDoctor(rows, doctorId);
    }
  }
}
