/** Persistence of patients (patient.repository). */
module PatientRepo {
  import opened Common
  import opened Models
  import opened DataSync

  const PatientsKey: string := "patients"

  class PatientRepository {
    const store: DataSyncService<Doc>

    constructor(store: DataSyncService<Doc>)
      ensures this.store == store
    {
      this.store := store;
    }

    /** `getPatients()`: the stored list, or none. */
    function GetPatients(): (r: seq<Patient>)
      reads store
      ensures r == [] || (PatientsKey in store.items && store.items[PatientsKey] == Json(PatientList(r)))
      ensures PatientsKey in store.items && store.items[PatientsKey].Json? && store.items[PatientsKey].value.PatientList? ==>
        r == store.items[PatientsKey].value.patients
    {
      var d := store.GetItem(PatientsKey, PatientList([]));
      if d.PatientList? then d.patients else []
    }

    /** `savePatients(list)`: replaces the whole list. */
    method SavePatients(patients: seq<Patient>, accepted: bool)
      modifies store`items, store`events
      ensures store.Wrote(PatientsKey, PatientList(patients), accepted)
      ensures GetPatients() == if accepted then patients else old(GetPatients())
    {
      store.SetItem(PatientsKey, PatientList(patients), accepted);
    }

    /** `getPatientById(id)`: the first stored patient with that id, if any. */
    function GetPatientById(id: string): (r: Option<Patient>)
      reads store
      ensures r.Some? <==> exists i :: 0 <= i < |GetPatients()| && GetPatients()[i].id == id
      ensures r.Some? ==> r.value in GetPatients() && r.value.id == id
      ensures r.Some? ==> exists i :: 0 <= i < |GetPatients()| && GetPatients()[i] == r.value
                                      && forall j :: 0 <= j < i ==> GetPatients()[j].id != id
    {
      FindFirst(GetPatients(), (p: Patient) => p.id == id);
      Find(GetPatients(), (p: Patient) => p.id == id)
    }

    /** `getPatientByPhone(phone)`: the first stored patient with exactly that phone, if any. */
    function GetPatientByPhone(phone: string): (r: Option<Patient>)
      reads store
      ensures r.Some? <==> exists i :: 0 <= i < |GetPatients()| && GetPatients()[i].phone == phone
      ensures r.Some? ==> r.value in GetPatients() && r.value.phone == phone
      ensures r.Some? ==> exists i :: 0 <= i < |GetPatients()| && GetPatients()[i] == r.value
                                      && forall j :: 0 <= j < i ==> GetPatients()[j].phone != phone
    {
      FindFirst(GetPatients(), (p: Patient) => p.phone == phone);
      Find(GetPatients(), (p: Patient) => p.phone == phone)
    }
  }
}
