/** Persistence of clinical notes and prescriptions (clinical.repository). */
module ClinicalRepo {
  import opened Common
  import opened Models
  import opened DataSync

  const NotesKey: string := "clinical_notes"
  const PrescriptionsKey: string := "prescriptions"

  class ClinicalRepository {
    const store: DataSyncService<Doc>

    constructor(store: DataSyncService<Doc>)
      ensures this.store == store
    {
      this.store := store;
    }

    /** `getNotes()`: the stored notes, or none. */
    function GetNotes(): (r: seq<ClinicalNote>)
      reads store
      ensures r == [] || (NotesKey in store.items && store.items[NotesKey] == Json(NoteList(r)))
      ensures NotesKey in store.items && store.items[NotesKey].Json? && store.items[NotesKey].value.NoteList? ==>
        r == store.items[NotesKey].value.notes
    {
      var d := store.GetItem(NotesKey, NoteList([]));
      if d.NoteList? then d.notes else []
    }

    /** `getPrescriptions()`: the stored prescriptions, or none. */
    function GetPrescriptions(): (r: seq<Prescription>)
      reads store
      ensures r == [] || (PrescriptionsKey in store.items && store.items[PrescriptionsKey] == Json(PrescriptionList(r)))
      ensures PrescriptionsKey in store.items && store.items[PrescriptionsKey].Json? && store.items[PrescriptionsKey].value.PrescriptionList? ==>
        r == store.items[PrescriptionsKey].value.prescriptions
    {
      var d := store.GetItem(PrescriptionsKey, PrescriptionList([]));
      if d.PrescriptionList? then d.prescriptions else []
    }

    /** `saveNotes(notes)`: replaces the notes; the prescriptions stay. */
    method SaveNotes(notes: seq<ClinicalNote>, accepted: bool)
      modifies store`items, store`events
      ensures store.Wrote(NotesKey, NoteList(notes), accepted)
      ensures GetNotes() == if accepted then notes else old(GetNotes())
      ensures GetPrescriptions() == old(GetPrescriptions())
    {
      store.SetItem(NotesKey, NoteList(notes), accepted);
    }

    /** `savePrescriptions(list)`: replaces the prescriptions; the notes stay. */
    method SavePrescriptions(prescriptions: seq<Prescription>, accepted: bool)
      modifies store`items, store`events
      ensures store.Wrote(PrescriptionsKey, PrescriptionList(prescriptions), accepted)
      ensures GetPrescriptions() == if accepted then prescriptions else old(GetPrescriptions())
      ensures GetNotes() == old(GetNotes())
    {
      store.SetItem(PrescriptionsKey, PrescriptionList(prescriptions), accepted);
    }

    /** `getNotesByPatient(patientId)`: the patient's notes, in stored order. */
    function GetNotesByPatient(patientId: string): (r: seq<ClinicalNote>)
      reads store
      ensures forall i :: 0 <= i < |r| ==> r[i] in GetNotes() && r[i].patientId == patientId
      ensures forall n :: n in GetNotes() && n.patientId == patientId ==> n in r
      ensures Subsequence(r, GetNotes())
      ensures forall n :: multiset(r)[n] == if n.patientId == patientId then multiset(GetNotes())[n] else 0
    {
      FilterSubsequence(GetNotes(), (n: ClinicalNote) => n.patientId == patientId);
      FilterMultiset(GetNotes(), (n: ClinicalNote) => n.patientId == patientId);
      Filter(GetNotes(), (n: ClinicalNote) => n.patientId == patientId)
    }

    /** `getPrescriptionsByPatient(patientId)`: the patient's prescriptions, in stored order. */
    function GetPrescriptionsByPatient(patientId: string): (r: seq<Prescription>)
      reads store
      ensures forall i :: 0 <= i < |r| ==> r[i] in GetPrescriptions() && r[i].patientId == patientId
      ensures forall p :: p in GetPrescriptions() && p.patientId == patientId ==> p in r
      ensures Subsequence(r, GetPrescriptions())
      ensures forall p :: multiset(r)[p] == if p.patientId == patientId then multiset(GetPrescriptions())[p] else 0
    {
      FilterSubsequence(GetPrescriptions(), (p: Prescription) => p.patientId == patientId);
      FilterMultiset(GetPrescriptions(), (p: Prescription) => p.patientId == patientId);
      Filter(GetPrescriptions(), (p: Prescription) => p.patientId == patientId)
    }

    /** `addPrescription(prescription)`: appends one prescription. */
    method AddPrescription(prescription: Prescription, accepted: bool)
      modifies store`items, store`events
      ensures store.Wrote(PrescriptionsKey, PrescriptionList(old(GetPrescriptions()) + [prescription]), accepted)
      ensures GetPrescriptions() == if accepted then old(GetPrescriptions()) + [prescription] else old(GetPrescriptions())
      ensures GetNotes() == old(GetNotes())
    {
      var list := GetPrescriptions();
      SavePrescriptions(list + [prescription], accepted);
    }

    /** `addNote(note)`: appends one note. */
    method AddNote(note: ClinicalNote, accepted: bool)
      modifies store`items, store`events
      ensures store.Wrote(NotesKey, NoteList(old(GetNotes()) + [note]), accepted)
      ensures GetNotes() == if accepted then old(GetNotes()) + [note] else old(GetNotes())
      ensures GetPrescriptions() == old(GetPrescriptions())
    {
      var list := GetNotes();
      SaveNotes(list + [note], accepted);
    }
  }
}
