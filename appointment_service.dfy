/** The appointment service (appointment.service): books appointments with a
    per-doctor slot conflict check, offers the free slots of a day, changes
    statuses, removes a patient's appointments and searches the open ones. */
module Appointments {
  import opened Common
  import opened Strings
  import opened Models
  import opened DataSync
  import opened AppointmentRepo

  const MissingFields: string := "Missing required appointment fields"

  function SlotUnavailable(timeSlot: string): string
  {
    "Doctor is unavailable at " + timeSlot + ". Please choose another slot."
  }

  /** The twelve bookable slots of a day, in order. */
  const StandardSlots: seq<string> := [
    "09:00", "09:30", "10:00", "10:30", "11:00", "11:30",
    "14:00", "14:30", "15:00", "15:30", "16:00", "16:30"]

  /** The validation of `bookAppointment`: a required field is empty or absent. */
  predicate MissingField(data: AppointmentRequest)
  {
    data.patientId == "" || data.doctorId == "" || data.appointmentDate.None?
    || data.timeSlot == "" || data.department == ""
  }

  /** An appointment holds the slot: it is the doctor's, still BOOKED, on that
      date and at that time. Cancelled, completed and checked-in ones free it. */
  predicate Holds(a: Appointment, doctorId: string, date: Day, timeSlot: string)
  {
    a.doctorId == doctorId && a.status == AppointmentStatus.Booked
    && a.appointmentDate == date && a.timeSlot == timeSlot
  }

  /** `APT-yyyymmdd-nnn` with today's date and a three-digit random suffix. */
  function AppointmentId(today: Day, suffix: nat): (id: string)
    ensures |id| >= 4 && id[..4] == "APT-"
  {
    "APT-" + DateStamp(today) + "-" + PadStart(NatToString(suffix), 3, '0')
  }

  /** The appointment a valid booking creates. */
  function Booking(data: AppointmentRequest, id: string, now: Instant): Appointment
    requires data.appointmentDate.Some?
  {
    Appointment(id, data.patientId, data.patientName, data.patientPhone, data.doctorId, data.doctorName,
                data.department, data.appointmentDate.value, data.timeSlot, data.reason,
                AppointmentStatus.Booked, now, now)
  }

  /** `searchAppointments`' test: an open appointment (BOOKED, or the legacy
      'SCHEDULED') whose lower-cased name, phone or lower-cased id contains the term. */
  predicate MatchesTerm(a: Appointment, term: string)
  {
    (a.status == AppointmentStatus.Booked || a.status == AppointmentStatus.Legacy("SCHEDULED"))
    && (Contains(ToLower(a.patientName), term)
        || Contains(if a.patientPhone.Some? then a.patientPhone.value else "", term)
        || Contains(ToLower(a.id), term))
  }

  /** `searchAppointments(query)` over a list of appointments. */
  function Search(appointments: seq<Appointment>, query: string): (r: seq<Appointment>)
    ensures forall i :: 0 <= i < |r| ==> r[i] in appointments && MatchesTerm(r[i], Normalize(query))
    ensures forall i :: 0 <= i < |appointments| && MatchesTerm(appointments[i], Normalize(query)) ==> appointments[i] in r
    ensures Subsequence(r, appointments)
    ensures forall a :: multiset(r)[a] == if MatchesTerm(a, Normalize(query)) then multiset(appointments)[a] else 0
  {
    FilterSubsequence(appointments, (a: Appointment) => MatchesTerm(a, Normalize(query)));
    FilterMultiset(appointments, (a: Appointment) => MatchesTerm(a, Normalize(query)));
    Filter(appointments, (a: Appointment) => MatchesTerm(a, Normalize(query)))
  }

  /** Searching ignores the case of the query and white space around it. */
  lemma SearchIgnoresCaseAndSpace(appointments: seq<Appointment>, query: string)
    ensures Search(appointments, ToUpper(query)) == Search(appointments, query)
    ensures Search(appointments, Trim(query)) == Search(appointments, query)
  {
    NormalizeIgnoresCaseAndSpace(query);
  }

  /** An empty (or all-blank) query lists every open appointment. */
  lemma SearchEmptyQuery(appointments: seq<Appointment>, query: string)
    requires Normalize(query) == ""
    ensures Search(appointments, query)
         == Filter(appointments, (a: Appointment) => a.status == AppointmentStatus.Booked || a.status == AppointmentStatus.Legacy("SCHEDULED"))
  {
    forall a: Appointment
      ensures MatchesTerm(a, "") == (a.status == AppointmentStatus.Booked || a.status == AppointmentStatus.Legacy("SCHEDULED"))
    {
      assert OccursAt(ToLower(a.id), "", 0);
    }
    FilterCongruent(appointments, (a: Appointment) => MatchesTerm(a, Normalize(query)),
      (a: Appointment) => a.status == AppointmentStatus.Booked || a.status == AppointmentStatus.Legacy("SCHEDULED"));
  }

  /** The times booked for a doctor on a date. */
  function BookedSlots(appointments: seq<Appointment>, doctorId: string, date: Day): seq<string>
  {
    if appointments == [] then []
    else
      var a := appointments[0];
      (if a.doctorId == doctorId && a.status == AppointmentStatus.Booked && a.appointmentDate == date then [a.timeSlot] else [])
        + BookedSlots(appointments[1..], doctorId, date)
  }

  lemma {:induction false} BookedSlotsSpec(appointments: seq<Appointment>, doctorId: string, date: Day, slot: string)
    ensures slot in BookedSlots(appointments, doctorId, date) <==> exists i :: 0 <= i < |appointments| && Holds(appointments[i], doctorId, date, slot)
  {
    if appointments != [] {
      BookedSlotsSpec(appointments[1..], doctorId, date, slot);
      if exists i :: 0 <= i < |appointments| && Holds(appointments[i], doctorId, date, slot) {
        var i :| 0 <= i < |appointments| && Holds(appointments[i], doctorId, date, slot);
        if i > 0 {
          assert Holds(appointments[1..][i - 1], doctorId, date, slot);
        }
      }
      if exists i :: 0 <= i < |appointments[1..]| && Holds(appointments[1..][i], doctorId, date, slot) {
        var i :| 0 <= i < |appointments[1..]| && Holds(appointments[1..][i], doctorId, date, slot);
        assert Holds(appointments[i + 1], doctorId, date, slot);
      }
    }
  }

  /** `getAvailableSlots(doctorId, date)` over a list of appointments. */
  function AvailableSlots(appointments: seq<Appointment>, doctorId: string, date: Day): (r: seq<string>)
    ensures forall i :: 0 <= i < |r| ==> r[i] in StandardSlots
    ensures forall s :: s in StandardSlots ==>
      (s in r <==> !exists i :: 0 <= i < |appointments| && Holds(appointments[i], doctorId, date, s))
    ensures Subsequence(r, StandardSlots)
  {
    var booked := BookedSlots(appointments, doctorId, date);
    FilterSubsequence(StandardSlots, (s: string) => s !in booked);
    forall s | s in StandardSlots
      ensures s in booked <==> exists i :: 0 <= i < |appointments| && Holds(appointments[i], doctorId, date, s)
    {
      BookedSlotsSpec(appointments, doctorId, date, s);
    }
    Filter(StandardSlots, (s: string) => s !in booked)
  }

  /** With nothing booked every standard slot is free. */
  lemma AvailableSlotsWhenFree(appointments: seq<Appointment>, doctorId: string, date: Day)
    requires forall i :: 0 <= i < |appointments| ==> appointments[i].doctorId != doctorId
    ensures AvailableSlots(appointments, doctorId, date) == StandardSlots
  {
    forall s | s in StandardSlots
      ensures s !in BookedSlots(appointments, doctorId, date)
    {
      BookedSlotsSpec(appointments, doctorId, date, s);
    }
    FilterAll(StandardSlots, (s: string) => s !in BookedSlots(appointments, doctorId, date));
  }

  class AppointmentService {
    /** The current appointment list (the service's `appointmentsSubject`). */
    var appointments: seq<Appointment>
    const repo: AppointmentRepository

    constructor(repo: AppointmentRepository)
      ensures this.repo == repo && appointments == repo.GetAppointments()
    {
      this.repo := repo;
      appointments := repo.GetAppointments();
    }

    /** Re-reads the stored list, as on every 'appointments' announcement. */
    method RefreshAppointments()
      modifies this`appointments
      ensures appointments == repo.GetAppointments()
    {
      appointments := repo.GetAppointments();
    }

    /** `checkConflict(doctorId, date, timeSlot)`. */
    predicate HasConflict(doctorId: string, date: Day, timeSlot: string)
      reads this
    {
      exists i :: 0 <= i < |appointments| && Holds(appointments[i], doctorId, date, timeSlot)
    }

    /** A BOOKED appointment takes its slot: once it is appended, the slot is
        held by some appointment and no longer offered. */
    static lemma BookingTakesSlot(appointments: seq<Appointment>, apt: Appointment)
      requires apt.status == AppointmentStatus.Booked
      ensures exists i :: 0 <= i < |appointments + [apt]| && Holds((appointments + [apt])[i], apt.doctorId, apt.appointmentDate, apt.timeSlot)
      ensures apt.timeSlot !in AvailableSlots(appointments + [apt], apt.doctorId, apt.appointmentDate)
    {
      assert Holds((appointments + [apt])[|appointments|], apt.doctorId, apt.appointmentDate, apt.timeSlot);
    }

    /** `bookAppointment(data)`: rejects missing fields, then a taken slot;
        otherwise appends one BOOKED appointment with an `APT-` id and saves
        the list. `today` and `suffix` stand for the clock and the random draw. */
    method BookAppointment(data: AppointmentRequest, today: Day, suffix: nat, now: Instant, accepted: bool)
      returns (r: Result<Appointment>)
      requires suffix < 1000
      modifies this`appointments, repo.store`items, repo.store`events
      ensures MissingField(data) ==> r == Err(MissingFields)
      ensures !MissingField(data) && old(HasConflict(data.doctorId, data.appointmentDate.value, data.timeSlot)) ==>
        r == Err(SlotUnavailable(data.timeSlot))
      ensures r.Err? ==> appointments == old(appointments) && unchanged(repo.store)
      ensures r.Ok? <==> !MissingField(data) && !old(HasConflict(data.doctorId, data.appointmentDate.value, data.timeSlot))
      ensures r.Ok? ==>
        && r.value == Booking(data, AppointmentId(today, suffix), now)
        && r.value.status == AppointmentStatus.Booked && r.value.id[..4] == "APT-"
        && appointments == old(appointments) + [r.value]
        && repo.store.Wrote(AppointmentsKey, AppointmentList(appointments), accepted)
        && HasConflict(data.doctorId, data.appointmentDate.value, data.timeSlot)
        && data.timeSlot !in AvailableSlots(appointments, data.doctorId, data.appointmentDate.value)
    {
      if MissingField(data) {
        return Err(MissingFields);
      }
      var date := data.appointmentDate.value;
      if HasConflict(data.doctorId, date, data.timeSlot) {
        return Err(SlotUnavailable(data.timeSlot));
      }
      var apt := Booking(data, AppointmentId(today, suffix), now);
      var updated := appointments + [apt];
      appointments := updated;
      repo.SaveAppointments(updated, accepted);
      BookingTakesSlot(old(appointments), apt);
      r := Ok(apt);
    }

    /** `getAppointmentsByDoctor(doctorId)`: the doctor's BOOKED appointments, in order. */
    function GetAppointmentsByDoctor(doctorId: string): (r: seq<Appointment>)
      reads this
      ensures forall i :: 0 <= i < |r| ==> r[i] in appointments && r[i].doctorId == doctorId && r[i].status == AppointmentStatus.Booked
      ensures forall i :: 0 <= i < |appointments| && appointments[i].doctorId == doctorId && appointments[i].status == AppointmentStatus.Booked ==> appointments[i] in r
      ensures Subsequence(r, appointments)
      ensures forall a :: multiset(r)[a] == if a.doctorId == doctorId && a.status == AppointmentStatus.Booked then multiset(appointments)[a] else 0
    {
      FilterSubsequence(appointments, (a: Appointment) => a.doctorId == doctorId && a.status == AppointmentStatus.Booked);
      FilterMultiset(appointments, (a: Appointment) => a.doctorId == doctorId && a.status == AppointmentStatus.Booked);
      Filter(appointments, (a: Appointment) => a.doctorId == doctorId && a.status == AppointmentStatus.Booked)
    }

    /** `updateAppointmentStatus(id, status)`: `None` and no write for an
        unknown id; otherwise the first appointment with that id gets the new
        status and update time, and the list is saved. */
    method UpdateAppointmentStatus(appointmentId: string, status: AppointmentStatus, now: Instant, accepted: bool)
      returns (r: Option<Appointment>)
      modifies this`appointments, repo.store`items, repo.store`events
      ensures var k := FindIndex(old(appointments), (a: Appointment) => a.id == appointmentId);
        && (k == -1 ==> r.None? && appointments == old(appointments) && unchanged(repo.store))
        && (k != -1 ==>
              && r == Some(old(appointments)[k].(status := status, updatedAt := now))
              && appointments == old(appointments)[k := r.value]
              && repo.store.Wrote(AppointmentsKey, AppointmentList(appointments), accepted))
    {
      var k := FindIndex(appointments, (a: Appointment) => a.id == appointmentId);
      if k == -1 {
        return None;
      }
      var updatedApt := appointments[k].(status := status, updatedAt := now);
      var updated := appointments[k := updatedApt];
      appointments := updated;
      repo.SaveAppointments(updated, accepted);
      r := Some(updatedApt);
    }

    /** `cancelAppointment(id, reason)`: the status update to CANCELLED. The
        reason only feeds a notification. */
    method CancelAppointment(appointmentId: string, now: Instant, accepted: bool) returns (r: Option<Appointment>)
      modifies this`appointments, repo.store`items, repo.store`events
      ensures var k := FindIndex(old(appointments), (a: Appointment) => a.id == appointmentId);
        && (k == -1 ==> r.None? && appointments == old(appointments) && unchanged(repo.store))
        && (k != -1 ==>
              && r == Some(old(appointments)[k].(status := AppointmentStatus.Cancelled, updatedAt := now))
              && appointments == old(appointments)[k := r.value]
              && repo.store.Wrote(AppointmentsKey, AppointmentList(appointments), accepted))
    {
      r := UpdateAppointmentStatus(appointmentId, AppointmentStatus.Cancelled, now, accepted);
    }

    /** `deleteAppointmentsByPatient(patientId)`: removes the patient's
        appointments and returns how many went; writes only when some did. */
    method DeleteAppointmentsByPatient(patientId: string, accepted: bool) returns (count: nat)
      modifies this`appointments, repo.store`items, repo.store`events
      ensures count == |old(appointments)| - |appointments|
      ensures forall i :: 0 <= i < |appointments| ==> appointments[i].patientId != patientId
      ensures count == Count(old(appointments), (a: Appointment) => a.patientId == patientId)
      ensures count == 0 ==> appointments == old(appointments) && unchanged(repo.store)
      ensures count > 0 ==>
        && appointments == Filter(old(appointments), (a: Appointment) => a.patientId != patientId)
        && repo.store.Wrote(AppointmentsKey, AppointmentList(appointments), accepted)
      ensures repo.GetAppointments() == if accepted && count > 0 then appointments else old(repo.GetAppointments())
    {
      var filtered := Filter(appointments, (a: Appointment) => a.patientId != patientId);
      FilterComplement(appointments, patientId);
      count := |appointments| - |filtered|;
      if count > 0 {
        appointments := filtered;
        repo.SaveAppointments(filtered, accepted);
      } else {
        FilterAll(appointments, (a: Appointment) => a.patientId != patientId);
      }
    }

    /** `searchAppointments(query)`. */
    function SearchAppointments(query: string): (r: seq<Appointment>)
      reads this
      ensures forall i :: 0 <= i < |r| ==> r[i] in appointments && MatchesTerm(r[i], Normalize(query))
      ensures forall i :: 0 <= i < |appointments| && MatchesTerm(appointments[i], Normalize(query)) ==> appointments[i] in r
      ensures Subsequence(r, appointments)
      ensures forall a :: multiset(r)[a] == if MatchesTerm(a, Normalize(query)) then multiset(appointments)[a] else 0
    {
      Search(appointments, query)
    }

    /** `getMyAppointments(patientId)`: read from the store, not from the list in memory. */
    function GetMyAppointments(patientId: string): (r: seq<Appointment>)
      reads this, repo.store
      ensures forall i :: 0 <= i < |r| ==> r[i] in repo.GetAppointments() && r[i].patientId == patientId
      ensures forall a :: a in repo.GetAppointments() && a.patientId == patientId ==> a in r
      ensures Subsequence(r, repo.GetAppointments())
      ensures forall a :: multiset(r)[a] == if a.patientId == patientId then multiset(repo.GetAppointments())[a] else 0
    {
      repo.GetAppointmentsByPatient(patientId)
    }

    /** `getAvailableSlots(doctorId, date)`. */
    function GetAvailableSlots(doctorId: string, date: Day): (r: seq<string>)
      reads this
      ensures forall i :: 0 <= i < |r| ==> r[i] in StandardSlots
      ensures forall s :: s in StandardSlots ==> (s in r <==> !HasConflict(doctorId, date, s))
      ensures Subsequence(r, StandardSlots)
    {
      AvailableSlots(appointments, doctorId, date)
    }
  }

  /** Removing the matches of a predicate removes exactly as many elements as match it. */
  lemma {:induction false} FilterComplement(s: seq<Appointment>, patientId: string)
    ensures |Filter(s, (a: Appointment) => a.patientId != patientId)| + Count(s, (a: Appointment) => a.patientId == patientId) == |s|
  {
    if s != [] {
      FilterComplement(s[1..], patientId);
    }
  }
}
