/** Persistence of recorded vitals (vitals.repository). */
module VitalsRepo {
  import opened Common
  import opened Models
  import opened DataSync

  const VitalsKey: string := "vitals"

  class VitalsRepository {
    const store: DataSyncService<Doc>

    constructor(store: DataSyncService<Doc>)
      ensures this.store == store
    {
      this.store := store;
    }

    /** `getAllVitals()`: the stored list, or none. */
    function GetAllVitals(): (r: seq<Vitals>)
      reads store
      ensures r == [] || (VitalsKey in store.items && store.items[VitalsKey] == Json(VitalsList(r)))
      ensures VitalsKey in store.items && store.items[VitalsKey].Json? && store.items[VitalsKey].value.VitalsList? ==>
        r == store.items[VitalsKey].value.vitals
    {
      var d := store.GetItem(VitalsKey, VitalsList([]));
      if d.VitalsList? then d.vitals else []
    }

    /** `saveVitals(list)`: replaces the whole list. */
    method SaveVitals(vitalsList: seq<Vitals>, accepted: bool)
      modifies store`items, store`events
      ensures store.Wrote(VitalsKey, VitalsList(vitalsList), accepted)
      ensures GetAllVitals() == if accepted then vitalsList else old(GetAllVitals())
    {
      store.SetItem(VitalsKey, VitalsList(vitalsList), accepted);
    }

    /** `getVitalsByPatient(patientId)`: the patient's readings, in stored order. */
    function GetVitalsByPatient(patientId: string): (r: seq<Vitals>)
      reads store
      ensures forall i :: 0 <= i < |r| ==> r[i] in GetAllVitals() && r[i].patientId == patientId
      ensures forall v :: v in GetAllVitals() && v.patientId == patientId ==> v in r
      ensures Subsequence(r, GetAllVitals())
      ensures forall v :: multiset(r)[v] == if v.patientId == patientId then multiset(GetAllVitals())[v] else 0
    {
      FilterSubsequence(GetAllVitals(), (v: Vitals) => v.patientId == patientId);
      FilterMultiset(GetAllVitals(), (v: Vitals) => v.patientId == patientId);
      Filter(GetAllVitals(), (v: Vitals) => v.patientId == patientId)
    }

    /** `getVitalsByAppointment(appointmentId)`: the first reading taken for that appointment, if any. */
    function GetVitalsByAppointment(appointmentId: string): (r: Option<Vitals>)
      reads store
      ensures r.Some? <==> exists i :: 0 <= i < |GetAllVitals()| && GetAllVitals()[i].appointmentId == Some(appointmentId)
      ensures r.Some? ==> r.value in GetAllVitals() && r.value.appointmentId == Some(appointmentId)
      ensures r.Some? ==> exists i :: 0 <= i < |GetAllVitals()| && GetAllVitals()[i] == r.value
                                      && forall j :: 0 <= j < i ==> GetAllVitals()[j].appointmentId != Some(appointmentId)
    {
      FindFirst(GetAllVitals(), (v: Vitals) => v.appointmentId == Some(appointmentId));
      Find(GetAllVitals(), (v: Vitals) => v.appointmentId == Some(appointmentId))
    }

    /** `addVitals(vitals)`: appends one reading. */
    method AddVitals(vitals: Vitals, accepted: bool)
      modifies store`items, store`events
      ensures store.Wrote(VitalsKey, VitalsList(old(GetAllVitals()) + [vitals]), accepted)
      ensures GetAllVitals() == if accepted then old(GetAllVitals()) + [vitals] else old(GetAllVitals())
    {
      var list := GetAllVitals();
      SaveVitals(list + [vitals], accepted);
    }
  }
}
