/** Persistence of appointments (appointment.repository). */
module AppointmentRepo {
  import opened Common
  import opened Models
  import opened DataSync

  const AppointmentsKey: string := "appointments"

  class AppointmentRepository {
    const store: DataSyncService<Doc>

    constructor(store: DataSyncService<Doc>)
      ensures this.store == store
    {
      this.store := store;
    }

    /** `getAppointments()`: the stored list, or none. */
    function GetAppointments(): (r: seq<Appointment>)
      reads store
      ensures r == [] || (AppointmentsKey in store.items && store.items[AppointmentsKey] == Json(AppointmentList(r)))
      ensures AppointmentsKey in store.items && store.items[AppointmentsKey].Json? && store.items[AppointmentsKey].value.AppointmentList? ==>
        r == store.items[AppointmentsKey].value.appointments
    {
      var d := store.GetItem(AppointmentsKey, AppointmentList([]));
      if d.AppointmentList? then d.appointments else []
    }

    /** `saveAppointments(list)`: replaces the whole list. */
    method SaveAppointments(appointments: seq<Appointment>, accepted: bool)
      modifies store`items, store`events
      ensures store.Wrote(AppointmentsKey, AppointmentList(appointments), accepted)
      ensures GetAppointments() == if accepted then appointments else old(GetAppointments())
    {
      store.SetItem(AppointmentsKey, AppointmentList(appointments), accepted);
    }

    /** `getAppointmentsByPatient(patientId)`: the patient's appointments, in stored order. */
    function GetAppointmentsByPatient(patientId: string): (r: seq<Appointment>)
      reads store
      ensures forall i :: 0 <= i < |r| ==> r[i] in GetAppointments() && r[i].patientId == patientId
      ensures forall a :: a in GetAppointments() && a.patientId == patientId ==> a in r
      ensures Subsequence(r, GetAppointments())
      ensures forall a :: multiset(r)[a] == if a.patientId == patientId then multiset(GetAppointments())[a] else 0
    {
      FilterSubsequence(GetAppointments(), (a: Appointment) => a.patientId == patientId);
      FilterMultiset(GetAppointments(), (a: Appointment) => a.patientId == patientId);
      Filter(GetAppointments(), (a: Appointment) => a.patientId == patientId)
    }

    /** `getAppointmentsByDoctor(doctorId)`: the doctor's appointments of any status, in stored order. */
    function GetAppointmentsByDoctor(doctorId: string): (r: seq<Appointment>)
      reads store
      ensures forall i :: 0 <= i < |r| ==> r[i] in GetAppointments() && r[i].doctorId == doctorId
      ensures forall a :: a in GetAppointments() && a.doctorId == doctorId ==> a in r
      ensures Subsequence(r, GetAppointments())
      ensures forall a :: multiset(r)[a] == if a.doctorId == doctorId then multiset(GetAppointments())[a] else 0
    {
      FilterSubsequence(GetAppointments(), (a: Appointment) => a.doctorId == doctorId);
      FilterMultiset(GetAppointments(), (a: Appointment) => a.doctorId == doctorId);
      Filter(GetAppointments(), (a: Appointment) => a.doctorId == doctorId)
    }
  }
}
