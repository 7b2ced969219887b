/** Patient registration and records (patient.service): the list in memory,
    the duplicate-phone rule, the cascade to appointments on deletion and the
    "virtual patient" made from a portal account. */
module Patients {
  import opened Common
  import opened Strings
  import opened Models
  import opened DataSync
  import opened PatientRepo
  import opened AppointmentRepo
  import opened Appointments
  import opened Users

  const NameAndPhoneRequired: string := "Name and phone are required for registration."
  const DuplicatePhone: string := "A patient with this phone number already exists."
  const PatientRecordNotFound: string := "Patient record not found."
  const PatientNotFound: string := "Patient not found."
  const PortalPhone: string := "Portal User"

  /** `PAT-` followed by the first eight characters of a random UUID, upper-cased. */
  function PatientId(uuid: string): (r: string)
    ensures 4 <= |r| <= 12 && r[..4] == "PAT-"
    ensures |uuid| >= 8 ==> |r| == 12
    ensures forall i :: 4 <= i < |r| ==> i - 4 < |uuid| && r[i] == Upper(uuid[i - 4])
  {
    "PAT-" + ToUpper(Take(uuid, 8))
  }

  /** The record `registerPatient` creates from the caller's data. */
  function Registered(draft: PatientDraft, uuid: string, now: Instant): (p: Patient)
    ensures p.id == PatientId(uuid) && p.fullName == draft.fullName && p.phone == draft.phone
    ensures p.createdAt == now && p.updatedAt == now
  {
    Patient(PatientId(uuid), draft.fullName, draft.phone, draft.email, draft.gender, draft.age,
            draft.dob, draft.address, now, now)
  }

  /** A patient-shaped record for a portal account that has no patient record. */
  function VirtualPatient(u: AppUser): (p: Patient)
    ensures p.id == u.id && p.fullName == u.fullName && p.email == Some(u.email)
    ensures p.phone == if Truthy(u.phone) then u.phone.value else PortalPhone
    ensures p.phone != ""
  {
    Patient(u.id, u.fullName, if Truthy(u.phone) then u.phone.value else PortalPhone,
            Some(u.email), u.gender, u.age, None, None, u.createdAt, u.updatedAt)
  }

  predicate IsPortalAccount(u: AppUser, id: string)
  {
    u.id == id && u.role == PatientUser
  }

  /** `getPatientById(id)` over a patient list and a user list: the patient
      record first, then a portal account of that id. */
  function PatientOrPortal(patients: seq<Patient>, users: seq<AppUser>, id: string): (r: Option<Patient>)
    ensures r.Some? <==> ((exists i :: 0 <= i < |patients| && patients[i].id == id)
                       || (exists j :: 0 <= j < |users| && IsPortalAccount(users[j], id)))
    ensures r.Some? ==> r.value.id == id
    ensures (exists i :: 0 <= i < |patients| && patients[i].id == id) ==> r.Some? && r.value in patients
    ensures r.Some? && r.value !in patients ==> exists j :: 0 <= j < |users| && r.value == VirtualPatient(users[j])
    ensures (exists i :: 0 <= i < |patients| && patients[i].id == id) ==>
      r.Some? && exists i :: 0 <= i < |patients| && patients[i] == r.value && forall j :: 0 <= j < i ==> patients[j].id != id
    ensures (forall i :: 0 <= i < |patients| ==> patients[i].id != id) && r.Some? ==>
      exists j :: 0 <= j < |users| && IsPortalAccount(users[j], id) && r.value == VirtualPatient(users[j])
                  && forall k :: 0 <= k < j ==> !IsPortalAccount(users[k], id)
  {
    FindFirst(patients, (p: Patient) => p.id == id);
    FindFirst(users, (u: AppUser) => IsPortalAccount(u, id));
    match Find(patients, (p: Patient) => p.id == id)
    case Some(p) => Some(p)
    case None =>
      match Find(users, (u: AppUser) => IsPortalAccount(u, id))
      case Some(u) => Some(VirtualPatient(u))
      case None => None
  }

  /** No two patients share a phone number. */
  ghost predicate DistinctPhones(patients: seq<Patient>)
  {
    forall i, j :: 0 <= i < j < |patients| ==> patients[i].phone != patients[j].phone
  }

  class PatientService {
    /** The current patient list (the service's `patientsSubject`). */
    var patients: seq<Patient>
    const repo: PatientRepository
    const appointmentService: AppointmentService
    const userService: UserService

    constructor(repo: PatientRepository, appointmentService: AppointmentService, userService: UserService)
      ensures this.repo == repo && this.appointmentService == appointmentService && this.userService == userService
      ensures patients == repo.GetPatients()
    {
      this.repo := repo;
      this.appointmentService := appointmentService;
      this.userService := userService;
      patients := repo.GetPatients();
    }

    /** `refreshPatients()`, also run on every 'patients' announcement. */
    method RefreshPatients()
      modifies this`patients
      ensures patients == repo.GetPatients()
    {
      patients := repo.GetPatients();
    }

    /** `registerPatient(data)`: the name and phone must be non-empty and the
        phone unknown to the store; the new record is appended to the list in
        memory, which is saved. */
    method RegisterPatient(draft: PatientDraft, uuid: string, now: Instant, accepted: bool) returns (r: Result<Patient>)
      modifies this`patients, repo.store`items, repo.store`events
      ensures draft.fullName == "" || draft.phone == "" ==>
        r == Err(NameAndPhoneRequired) && patients == old(patients) && unchanged(repo.store)
      ensures draft.fullName != "" && draft.phone != "" && old(repo.GetPatientByPhone(draft.phone)).Some? ==>
        r == Err(DuplicatePhone) && patients == old(patients) && unchanged(repo.store)
      ensures draft.fullName != "" && draft.phone != "" && old(repo.GetPatientByPhone(draft.phone)).None? ==>
        && r == Ok(Registered(draft, uuid, now))
        && patients == old(patients) + [r.value]
        && repo.store.Wrote(PatientsKey, PatientList(patients), accepted)
      ensures r.Ok? && accepted ==> repo.GetPatientByPhone(draft.phone).Some?
      ensures old(repo.GetPatients()) == old(patients) && old(DistinctPhones(patients)) ==> DistinctPhones(patients)
    {
      if draft.fullName == "" || draft.phone == "" {
        return Err(NameAndPhoneRequired);
      }
      if repo.GetPatientByPhone(draft.phone).Some? {
        return Err(DuplicatePhone);
      }
      var p := Registered(draft, uuid, now);
      var updated := patients + [p];
      assert updated[|patients|].phone == draft.phone;
      patients := updated;
      repo.SavePatients(updated, accepted);
      r := Ok(p);
    }

    /** `updatePatient(patient)`: replaces the record with the same id and
        stamps it; an unknown id is an error and nothing is written. */
    method UpdatePatient(patient: Patient, now: Instant, accepted: bool) returns (r: Result<Patient>)
      modifies this`patients, repo.store`items, repo.store`events
      ensures var k := FindIndex(old(patients), (p: Patient) => p.id == patient.id);
        && (k == -1 ==> r == Err(PatientRecordNotFound) && patients == old(patients) && unchanged(repo.store))
        && (k != -1 ==>
              && r == Ok(patient.(updatedAt := now))
              && patients == old(patients)[k := r.value]
              && repo.store.Wrote(PatientsKey, PatientList(patients), accepted))
      ensures |patients| == |old(patients)| && forall i :: 0 <= i < |patients| ==> patients[i].id == old(patients)[i].id
    {
      var k := FindIndex(patients, (p: Patient) => p.id == patient.id);
      if k == -1 {
        return Err(PatientRecordNotFound);
      }
      var updated := patients[k := patient.(updatedAt := now)];
      patients := updated;
      repo.SavePatients(updated, accepted);
      r := Ok(updated[k]);
    }

    /** The first write of `deletePatient`: the list without the patient's records. */
    method RemoveRecords(patientId: string, accepted: bool)
      modifies this`patients, repo.store`items, repo.store`events
      ensures patients == Filter(old(patients), (p: Patient) => p.id != patientId)
      ensures repo.store.Wrote(PatientsKey, PatientList(patients), accepted)
      ensures repo.GetPatients() == if accepted then patients else old(repo.GetPatients())
    {
      var updated := Filter(patients, (p: Patient) => p.id != patientId);
      patients := updated;
      repo.SavePatients(updated, accepted);
    }

    /** `deletePatient(patientId)`: removes every record with that id, saves
        the list and then removes the patient's appointments. `None` is
        success. The two writes are accepted or rejected one by one, so the
        store can be left with the patient gone and the appointments kept.
        Both repositories work on the application's one store. */
    method DeletePatient(patientId: string, patientsAccepted: bool, appointmentsAccepted: bool) returns (error: Option<string>)
      modifies this`patients, repo.store`items, repo.store`events
      modifies appointmentService`appointments, appointmentService.repo.store`items, appointmentService.repo.store`events
      requires appointmentService.repo.store == repo.store
      ensures (forall i :: 0 <= i < |old(patients)| ==> old(patients)[i].id != patientId) ==>
        error == Some(PatientNotFound) && patients == old(patients)
        && unchanged(repo.store) && unchanged(appointmentService, appointmentService.repo.store)
      ensures (exists i :: 0 <= i < |old(patients)| && old(patients)[i].id == patientId) ==>
        && error.None?
        && patients == Filter(old(patients), (p: Patient) => p.id != patientId)
        && (forall i :: 0 <= i < |appointmentService.appointments| ==> appointmentService.appointments[i].patientId != patientId)
        && repo.GetPatients() == (if patientsAccepted then patients else old(repo.GetPatients()))
        && appointmentService.repo.GetAppointments()
           == (if appointmentsAccepted && |appointmentService.appointments| < |old(appointmentService.appointments)|
               then appointmentService.appointments else old(appointmentService.repo.GetAppointments()))
    {
      if Find(patients, (p: Patient) => p.id == patientId).None? {
        return Some(PatientNotFound);
      }
      RemovePatientAndAppointments(patientId, patientsAccepted, appointmentsAccepted);
      error := None;
    }

    /** The two writes of `deletePatient` for a known patient. */
    method RemovePatientAndAppointments(patientId: string, patientsAccepted: bool, appointmentsAccepted: bool)
      modifies this`patients, repo.store`items, repo.store`events
      modifies appointmentService`appointments, appointmentService.repo.store`items, appointmentService.repo.store`events
      requires appointmentService.repo.store == repo.store
      ensures patients == Filter(old(patients), (p: Patient) => p.id != patientId)
      ensures forall i :: 0 <= i < |appointmentService.appointments| ==> appointmentService.appointments[i].patientId != patientId
      ensures repo.GetPatients() == (if patientsAccepted then patients else old(repo.GetPatients()))
      ensures appointmentService.repo.GetAppointments()
        == (if appointmentsAccepted && |appointmentService.appointments| < |old(appointmentService.appointments)|
            then appointmentService.appointments else old(appointmentService.repo.GetAppointments()))
    {
      ghost var storedAppointments := appointmentService.repo.GetAppointments();
      RemoveRecords(patientId, patientsAccepted);
      assert appointmentService.repo.GetAppointments() == storedAppointments by {
        assert PatientsKey != AppointmentsKey;
      }
      ghost var storedPatients := repo.GetPatients();
      ghost var saved := repo.store.items;
      var removed := appointmentService.DeleteAppointmentsByPatient(patientId, appointmentsAccepted);
      assert repo.GetPatients() == storedPatients by {
        assert PatientsKey != AppointmentsKey;
        assert PatientsKey in saved ==> PatientsKey in repo.store.items && repo.store.items[PatientsKey] == saved[PatientsKey];
        assert PatientsKey !in saved ==> PatientsKey !in repo.store.items;
      }
    }

    /** `getPatientById(id)`, combining the patient list with the user list. */
    function GetPatientById(id: string): (r: Option<Patient>)
      reads this, userService
      ensures r.Some? ==> r.value.id == id
      ensures (exists i :: 0 <= i < |patients| && patients[i].id == id) ==> r.Some? && r.value in patients
      ensures r.Some? && r.value !in patients ==>
        exists j :: 0 <= j < |userService.users| && userService.users[j].role == PatientUser && r.value == VirtualPatient(userService.users[j])
      ensures r.None? <==> ((forall i :: 0 <= i < |patients| ==> patients[i].id != id)
                         && (forall j :: 0 <= j < |userService.users| ==> !IsPortalAccount(userService.users[j], id)))
      ensures (exists i :: 0 <= i < |patients| && patients[i].id == id) ==>
        r.Some? && exists i :: 0 <= i < |patients| && patients[i] == r.value && forall j :: 0 <= j < i ==> patients[j].id != id
      ensures (forall i :: 0 <= i < |patients| ==> patients[i].id != id) && r.Some? ==>
        exists j :: 0 <= j < |userService.users| && IsPortalAccount(userService.users[j], id)
                    && r.value == VirtualPatient(userService.users[j])
                    && forall k :: 0 <= k < j ==> !IsPortalAccount(userService.users[k], id)
    {
      PatientOrPortal(patients, userService.users, id)
    }
  }
}
