# OPD management core, modelled in Dafny

This project models the core of an outpatient-department (OPD) management web application: its services and repositories, three display pipes and the doctor's queue page.

- **Storage.** Every record lives in the browser's key/value storage. `DataSync.DataSyncService` models it with a map from key to cell. A cell is blank, corrupt or parsed JSON. Each write is accepted or refused (a full storage throws); the outcome is a parameter of the write. An event log holds the keys announced to listeners.
- **Repositories.** Each repository reads and writes one or two keys through that service.
- **OPD service.** It issues tokens of the form `DEP-yyyymmdd-nnn`. It moves tokens through CHECKED_IN, IN_CONSULTATION, COMPLETED and CANCELLED, records visits and checks in appointments.
- **Queues.** A queue is derived from the token list. Active tokens are kept, sorted by priority and then by arrival, and each waiting token gets a position.
- **Other services.** The appointment, patient, user and billing services keep an in-memory list, write it through their repository, and report errors as values.
- **Notifications.** The notification service holds toasts and a list of at most 50 notifications.
- **Activity log.** The activity service holds at most 20 entries.
- **Errors.** The error handler maps HTTP failures to error codes and messages. It suppresses a repeat of the same message within two seconds.
- **Analytics.** The analytics service computes four dashboard charts and three stat cards from the token, patient and appointment lists.

Code that updates state in place is modelled as classes with `modifies` clauses. Pure computation is modelled as functions and lemmas. Clocks, random identifiers and "today" are parameters of the operations that use them.

One module per source file:

| file | module |
|---|---|
| `common.dfy` | `Common`: `Option`/`Result`, `Filter`, `Count`, `FindIndex`, `Find`, `Sum`, `PushFront` |
| `strings.dfy` | `Strings`: ASCII case mapping, trimming, padding, decimal digits |
| `models.dfy` | `Models`: the record types and `DateStamp` |
| `data_sync.dfy` | `DataSync` |
| `*_repository.dfy` | one module per repository |
| `opd_queue.dfy` | `OpdQueue`: the pure half of the OPD service |
| `opd_service.dfy` | `Opd`: the stateful half of the OPD service |
| `appointment_service.dfy` | `Appointments` |
| `patient_service.dfy` | `Patients` |
| `user_service.dfy` | `Users` |
| `billing_service.dfy` | `Billing` |
| `notification_service.dfy` | `Notifications` |
| `activity_service.dfy` | `Activities` |
| `error_handler.dfy` | `Errors` |
| `analytics.dfy` | `Analytics` |
| `pipes.dfy` | `Pipes` |
| `doctor_queue.dfy` | `DoctorQueuePage` |

## Model

| member | source | states |
|---|---|---|
| Strings.ToLowerIdempotent | src/app/core/services/user.service.ts:63 | lower-casing a lower-cased string changes nothing |
| Strings.ToLowerOfUpper | src/app/shared/pipes/gender-icon.pipe.ts:11 | lower-casing after upper-casing gives the same as lower-casing alone |
| Strings.TrimIdempotent | src/app/core/services/user.service.ts:63 | trimming a trimmed string changes nothing |
| Strings.TrimToLower | src/app/core/services/user.service.ts:63 | trimming and lower-casing commute |
| Strings.NormalizeIgnoresCaseAndSpace | src/app/core/services/user.service.ts:128 | the `toLowerCase().trim()` normal form of a username ignores letter case and surrounding white space, and normalising twice is normalising once |
| Strings.PadStart | src/app/features/receptionist/services/opd.service.ts:60 | the result has the larger of the width and the length; the original string is at its end, preceded only by pad characters |
| Strings.ParseNatToString | src/app/features/receptionist/services/opd.service.ts:60 | the decimal text of a number reads back as that number |
| Strings.PadStartParse | src/app/features/receptionist/services/opd.service.ts:60 | a zero-padded number is all digits and reads back as the number |
| Strings.PadStartInjective | src/app/features/receptionist/services/opd.service.ts:60 | two numbers with the same zero-padded text are equal |
| DataSync.KeyStream | src/app/core/services/data-sync.service.ts:42-51 | the merged event stream filtered to one key emits only that key, never for the empty key, and no more often than events arrived |
| DataSync.KeyStreamAppend | src/app/core/services/data-sync.service.ts:42-51 | a new event adds one emission for the key exactly when it carries that non-empty key |
| DataSync.KeyStreamCount | src/app/core/services/data-sync.service.ts:81-83 | the number of emissions for a non-empty key is the number of events that carried it |
| DataSync.DataSyncService.GetItem | src/app/core/services/data-sync.service.ts:97-105 | a parsed cell gives its value; a missing, empty or unparsable cell gives the default |
| DataSync.DataSyncService.OnKeyUpdate | src/app/core/services/data-sync.service.ts:81-83 | the stream for a key emits only that key |
| DataSync.DataSyncService.NotifyUpdate | src/app/core/services/data-sync.service.ts:65-67 | one announcement of the key is appended to the event log |
| DataSync.DataSyncService.ReceiveStorageEvent | src/app/core/services/data-sync.service.ts:42-46 | a storage event from another tab, with or without a key, is appended to the event log |
| DataSync.DataSyncService.SetItem | src/app/core/services/data-sync.service.ts:118-125 | a successful write stores the value, which every later read returns, and announces the key once; a failed write changes nothing |
| OpdRepo.OpdRepository.GetTokens | src/app/features/receptionist/repositories/opd.repository.ts:24-26 | exactly the list the `opd_tokens` cell holds when it parses as a token list; empty when the cell is missing, blank, corrupt or of another shape |
| OpdRepo.OpdRepository.GetVisits | src/app/features/receptionist/repositories/opd.repository.ts:38-40 | exactly the list the `opd_visits` cell holds when it parses as a visit list; empty when the cell is missing, blank, corrupt or of another shape |
| OpdRepo.OpdRepository.SaveTokens | src/app/features/receptionist/repositories/opd.repository.ts:31-33 | the list is written to `opd_tokens`; after a successful write it reads back unchanged; the visits are untouched |
| OpdRepo.OpdRepository.SaveVisits | src/app/features/receptionist/repositories/opd.repository.ts:45-47 | the list is written to `opd_visits` and reads back unchanged after a successful write; the tokens are untouched |
| OpdRepo.OpdRepository.AddVisit | src/app/features/receptionist/repositories/opd.repository.ts:52-55 | the old visits plus the new one at the end are written; the tokens are untouched |
| AppointmentRepo.AppointmentRepository.GetAppointments | src/app/features/receptionist/repositories/appointment.repository.ts:23-25 | exactly the list the `appointments` cell holds when it parses as an appointment list; empty when the cell is missing, blank, corrupt or of another shape |
| AppointmentRepo.AppointmentRepository.SaveAppointments | src/app/features/receptionist/repositories/appointment.repository.ts:30-32 | the list is written to `appointments` and reads back unchanged after a successful write |
| AppointmentRepo.AppointmentRepository.GetAppointmentsByPatient | src/app/features/receptionist/repositories/appointment.repository.ts:37-39 | exactly the stored appointments of the patient, in stored order; each kept record appears as many times as it is stored |
| AppointmentRepo.AppointmentRepository.GetAppointmentsByDoctor | src/app/features/receptionist/repositories/appointment.repository.ts:44-46 | exactly the stored appointments of the doctor, in stored order; each kept record appears as many times as it is stored |
| PatientRepo.PatientRepository.GetPatients | src/app/features/patient/repositories/patient.repository.ts:23-25 | exactly the list the `patients` cell holds when it parses as a patient list; empty when the cell is missing, blank, corrupt or of another shape |
| PatientRepo.PatientRepository.SavePatients | src/app/features/patient/repositories/patient.repository.ts:30-32 | the list is written to `patients` and reads back unchanged after a successful write |
| PatientRepo.PatientRepository.GetPatientById | src/app/features/patient/repositories/patient.repository.ts:37-39 | found if and only if some stored patient has the id, and what is found is a stored patient with that id |
| PatientRepo.PatientRepository.GetPatientByPhone | src/app/features/patient/repositories/patient.repository.ts:44-46 | found if and only if some stored patient has the phone number, and what is found is a stored patient with it |
| BillingRepo.BillingRepository.GetBills | src/app/features/receptionist/repositories/billing.repository.ts:14-16 | exactly the list the `bills` cell holds when it parses as a bill list; empty when the cell is missing, blank, corrupt or of another shape |
| BillingRepo.BillingRepository.GetPayments | src/app/features/receptionist/repositories/billing.repository.ts:22-24 | exactly the list the `payments` cell holds when it parses as a payment list; empty when the cell is missing, blank, corrupt or of another shape |
| BillingRepo.BillingRepository.SaveBills | src/app/features/receptionist/repositories/billing.repository.ts:18-20 | the bills are written and read back unchanged after a successful write; the payments are untouched |
| BillingRepo.BillingRepository.SavePayments | src/app/features/receptionist/repositories/billing.repository.ts:26-28 | the payments are written and read back unchanged after a successful write; the bills are untouched |
| BillingRepo.BillingRepository.AddBill | src/app/features/receptionist/repositories/billing.repository.ts:30-34 | the old bills plus the new one at the end are written; the payments are untouched |
| BillingRepo.BillingRepository.AddPayment | src/app/features/receptionist/repositories/billing.repository.ts:36-40 | the old payments plus the new one at the end are written; the bills are untouched |
| ClinicalRepo.ClinicalRepository.GetNotes | src/app/features/doctor/repositories/clinical.repository.ts:15-17 | exactly the list the `clinical_notes` cell holds when it parses as a note list; empty when the cell is missing, blank, corrupt or of another shape |
| ClinicalRepo.ClinicalRepository.GetPrescriptions | src/app/features/doctor/repositories/clinical.repository.ts:28-30 | exactly the list the `prescriptions` cell holds when it parses as a prescription list; empty when the cell is missing, blank, corrupt or of another shape |
| ClinicalRepo.ClinicalRepository.SaveNotes | src/app/features/doctor/repositories/clinical.repository.ts:19-21 | the notes are written and read back unchanged after a successful write; the prescriptions are untouched |
| ClinicalRepo.ClinicalRepository.SavePrescriptions | src/app/features/doctor/repositories/clinical.repository.ts:32-34 | the prescriptions are written and read back unchanged after a successful write; the notes are untouched |
| ClinicalRepo.ClinicalRepository.GetNotesByPatient | src/app/features/doctor/repositories/clinical.repository.ts:23-25 | exactly the stored notes of the patient, in stored order; each kept record appears as many times as it is stored |
| ClinicalRepo.ClinicalRepository.GetPrescriptionsByPatient | src/app/features/doctor/repositories/clinical.repository.ts:36-38 | exactly the stored prescriptions of the patient, in stored order; each kept record appears as many times as it is stored |
| ClinicalRepo.ClinicalRepository.AddPrescription | src/app/features/doctor/repositories/clinical.repository.ts:40-44 | the old prescriptions plus the new one at the end are written; the notes are untouched |
| ClinicalRepo.ClinicalRepository.AddNote | src/app/features/doctor/repositories/clinical.repository.ts:46-50 | the old notes plus the new one at the end are written; the prescriptions are untouched |
| VitalsRepo.VitalsRepository.GetAllVitals | src/app/features/nursing/repositories/vitals.repository.ts:13-15 | exactly the list the `vitals` cell holds when it parses as a vitals list; empty when the cell is missing, blank, corrupt or of another shape |
| VitalsRepo.VitalsRepository.SaveVitals | src/app/features/nursing/repositories/vitals.repository.ts:17-19 | the list is written to `vitals` and reads back unchanged after a successful write |
| VitalsRepo.VitalsRepository.GetVitalsByPatient | src/app/features/nursing/repositories/vitals.repository.ts:21-23 | exactly the stored vitals of the patient, in stored order; each kept record appears as many times as it is stored |
| VitalsRepo.VitalsRepository.GetVitalsByAppointment | src/app/features/nursing/repositories/vitals.repository.ts:25-27 | found if and only if some stored record belongs to the appointment; what is found is the first such record in stored order |
| VitalsRepo.VitalsRepository.AddVitals | src/app/features/nursing/repositories/vitals.repository.ts:29-33 | the old list plus the new record at the end is written |
| UserRepo.UsernameIndex | src/app/features/admin/repositories/user.repository.ts:47 | the first position with the username, or -1 exactly when no user has it |
| UserRepo.MergeMock | src/app/features/admin/repositories/user.repository.ts:55-60 | a default account keeps its id, username and role, takes the default full name, and takes the default department only when a sync is due and the default has one; every other field is the saved user's, and without a due sync the user is unchanged |
| UserRepo.MissingAppend | src/app/features/admin/repositories/user.repository.ts:49-51 | the defaults appended are those absent from the saved list, in order |
| UserRepo.MergedAll | src/app/features/admin/repositories/user.repository.ts:53-62 | each saved user is replaced by its merge with the default of the same username, if there is one |
| UserRepo.ExpectedUsernames | src/app/features/admin/repositories/user.repository.ts:43-64 | the synced list starts with the saved users under their own usernames, then holds only defaults |
| UserRepo.SyncAllSpec | src/app/features/admin/repositories/user.repository.ts:42-64 | `SyncAll`, the `forEach` over the defaults, yields the saved users, each merged with its default, followed by the missing defaults; `changed` is set exactly when some default is missing or due a sync |
| UserRepo.MocksPresent | src/app/features/admin/repositories/user.repository.ts:45-64 | after the sync every default username is present and no saved user was lost or renamed |
| UserRepo.UserRepository.Saved | src/app/features/admin/repositories/user.repository.ts:34 | exactly the list the `opd_users` cell holds when it parses as a user list; empty when the cell is missing, blank, corrupt or of another shape |
| UserRepo.UserRepository.GetUsers | src/app/features/admin/repositories/user.repository.ts:74-76 | the stored users when the cell parses as a user list; the default accounts when the cell is missing, blank or corrupt; empty for a parsed value of another shape |
| UserRepo.UserRepository.SaveUsers | src/app/features/admin/repositories/user.repository.ts:81-83 | the list is written to `opd_users` and reads back unchanged after a successful write |
| UserRepo.UserRepository.Init | src/app/features/admin/repositories/user.repository.ts:32-69 | an empty store is seeded with the default accounts; otherwise the synced list is written exactly when the sync changed something, and nothing is written when it did not |
| Models.DateStampDigits | src/app/features/receptionist/services/opd.service.ts:53 | `DateStamp` is all digits; for a four-digit year it is eight long and reads back as year, month and day |
| OpdQueue.DeptCodeSpec | src/app/features/receptionist/services/opd.service.ts:54 | `DeptCode` is the first three characters of the department (fewer when it is shorter), upper-cased |
| OpdQueue.RunningNumber | src/app/features/receptionist/services/opd.service.ts:60 | the running part of a token number is at least three digits and reads back as the day count plus one |
| OpdQueue.TokenNumberParts | src/app/features/receptionist/services/opd.service.ts:53-61 | `TokenNumber` splits back into the department code, a dash, the day stamp, a dash and the running number, which reads back as the count plus one |
| OpdQueue.TokenNumberInjective | src/app/features/receptionist/services/opd.service.ts:53-61 | two token numbers of one department and day are equal only when issued at the same count |
| OpdQueue.IssuedPriority | src/app/features/receptionist/services/opd.service.ts:73 | an emergency is URGENT and an appointment HIGH whatever was asked; a walk-in keeps the requested priority |
| OpdQueue.NewToken | src/app/features/receptionist/services/opd.service.ts:52-78 | a new token is CHECKED_IN and created now; its number is built from the count of the department's tokens of the day; its queue position is the number of those still waiting plus one, so never more than that count plus one; the day stamp is the local day, the corrected half of the token-number finding (the source stamps the UTC day) |
| OpdQueue.WellNumberedAt | src/app/features/receptionist/services/opd.service.ts:56-61 | in a well-numbered list every token carries the number of its department, day and count of earlier tokens |
| OpdQueue.AllNumbered | src/app/features/receptionist/services/opd.service.ts:56-61 | a list whose every token carries its number is well numbered |
| OpdQueue.IssuePreservesNumbering | src/app/features/receptionist/services/opd.service.ts:56-82 | appending a newly issued token keeps the list well numbered |
| OpdQueue.ReplacePreservesNumbering | src/app/features/receptionist/services/opd.service.ts:150-163 | replacing a token by one with the same number, department and creation time keeps the list well numbered |
| OpdQueue.WellNumberedDistinct | src/app/features/receptionist/services/opd.service.ts:56-61 | in a well-numbered list no two tokens of the same department and day share a number |
| OpdQueue.TokenNumberAsWritten | src/app/features/receptionist/services/opd.service.ts:52-61 | the number as the source builds it: the date stamp from the UTC date, the count from the local date; the two agree when those dates coincide |
| OpdQueue.TokenNumberAsWrittenRepeats | src/app/features/receptionist/services/opd.service.ts:52-61 | a concrete pair of issues just after local midnight east of UTC where the second token repeats the first one's number |
| OpdQueue.SortQueueSpec | src/app/features/receptionist/services/opd.service.ts:117-123 | `SortQueue` is sorted by priority then creation time and is a permutation of its input |
| OpdQueue.Pending | src/app/features/receptionist/services/opd.service.ts:125-139 | the number of tokens passed that are not in consultation, never more than the tokens passed |
| OpdQueue.Number | src/app/features/receptionist/services/opd.service.ts:125-139 | numbering keeps the length of the queue |
| OpdQueue.NumberAt | src/app/features/receptionist/services/opd.service.ts:126-139 | each numbered token is the sorted token with only its position changed: 0 in consultation, otherwise one more than the waiting tokens before it |
| OpdQueue.NumberSpec | src/app/features/receptionist/services/opd.service.ts:126-139 | the same, for every position at once |
| OpdQueue.ProcessQueue | src/app/features/receptionist/services/opd.service.ts:116-140 | the loop with the running `pendingCounter` yields the filtered, sorted and numbered queue |
| OpdQueue.QueueViewContents | src/app/features/receptionist/services/opd.service.ts:116-140 | `QueueView` holds as many tokens as are active, each one active and an input token with only its position changed, in priority-then-arrival order |
| OpdQueue.QueueViewComplete | src/app/features/receptionist/services/opd.service.ts:116-140 | every active input token appears in the queue |
| OpdQueue.QueueViewPositions | src/app/features/receptionist/services/opd.service.ts:125-139 | a token in consultation is at position 0; waiting tokens are numbered 1, 2, 3, ... in queue order |
| OpdQueue.DoctorQueueSound | src/app/features/receptionist/services/opd.service.ts:102-114 | `DoctorQueue` holds only active tokens assigned to the doctor or, when a department is given, unassigned tokens of it |
| OpdQueue.DoctorQueueComplete | src/app/features/receptionist/services/opd.service.ts:102-114 | every such active token is in the doctor's queue |
| Opd.WithStatus | src/app/features/receptionist/services/opd.service.ts:151-160 | a status update keeps id, number, department, creation time, patient id and name, visit type, appointment, priority and queue position; sets status and update time; takes a given doctor or keeps the old one |
| Opd.StatusUpdatePreservesNumbering | src/app/features/receptionist/services/opd.service.ts:146-167 | a status update keeps the token list well numbered |
| Opd.VisitFor | src/app/features/receptionist/services/opd.service.ts:183-192 | the visit copies the token's number, patient and department, credits the token's doctor or SYSTEM, and carries the diagnosis and notes |
| Opd.OpdService.RefreshTokens | src/app/features/receptionist/services/opd.service.ts:38-41 | the live list becomes the stored list |
| Opd.OpdService.GenerateToken | src/app/features/receptionist/services/opd.service.ts:43-92 | the new token is appended to the live list and the list is written; a well-numbered list stays well numbered; after a successful write the store holds the live list; the day stamp is the local day, the corrected half of the token-number finding (the source stamps the UTC day) |
| Opd.OpdService.GetDepartmentQueue | src/app/features/receptionist/services/opd.service.ts:94-96 | the queue view of the department's tokens: as many as the department has active ones, each of the department and active |
| Opd.OpdService.GetAllQueues | src/app/features/receptionist/services/opd.service.ts:98-100 | the queue view of all tokens: as many tokens as are active, and every active token appears |
| Opd.OpdService.GetDoctorQueue | src/app/features/receptionist/services/opd.service.ts:102-114 | the doctor's queue (`OpdQueue.DoctorQueue`): exactly the active tokens assigned to the doctor or, when a department is given, unassigned tokens of it |
| Opd.OpdService.GetTokenById | src/app/features/receptionist/services/opd.service.ts:142-144 | found if and only if some live token has the id; what is found is the first such token in list order |
| Opd.OpdService.UpdateTokenStatus | src/app/features/receptionist/services/opd.service.ts:146-167 | an unknown id changes nothing; otherwise only the first token with the id is replaced by its updated copy and the list is written; visits are untouched; numbering is preserved |
| Opd.OpdService.CompleteVisit | src/app/features/receptionist/services/opd.service.ts:169-214 | an unknown token is an error that changes nothing; otherwise the token becomes COMPLETED in the live list, `HasCompletedVisitToday` (opd.service.ts:205-214) then holds for its patient and day, and the visit from `VisitFor` is returned; the token list and the visit list are two separate writes, and each stored list becomes the new one exactly when its own write is accepted |
| Opd.OpdService.CheckInAppointment | src/app/features/receptionist/services/opd.service.ts:216-231 | an appointment that already has a token is refused and nothing changes; otherwise a HIGH-priority APPOINTMENT token for its patient and doctor is issued, after which a second check-in is refused |
| Appointments.AppointmentId | src/app/features/receptionist/services/appointment.service.ts:62-69 | an appointment id starts with `APT-` |
| Appointments.Search | src/app/features/receptionist/services/appointment.service.ts:140-153 | exactly the BOOKED or legacy SCHEDULED appointments whose name, phone or id contains the normalised term (`MatchesTerm`), in their original order; each kept record appears as many times as it is stored |
| Appointments.SearchIgnoresCaseAndSpace | src/app/features/receptionist/services/appointment.service.ts:141 | the search does not depend on letter case or surrounding white space of the query |
| Appointments.SearchEmptyQuery | src/app/features/receptionist/services/appointment.service.ts:144-149 | an empty query lists every BOOKED or legacy SCHEDULED appointment |
| Appointments.BookedSlotsSpec | src/app/features/receptionist/services/appointment.service.ts:180-187 | `BookedSlots` holds a slot exactly when some appointment `Holds` it: BOOKED, of the doctor, on that date, in that slot |
| Appointments.AvailableSlots | src/app/features/receptionist/services/appointment.service.ts:170-192 | only standard slots, in standard order, and a standard slot is offered exactly when no BOOKED appointment of the doctor on that date holds it |
| Appointments.AvailableSlotsWhenFree | src/app/features/receptionist/services/appointment.service.ts:170-192 | a doctor without appointments has every standard slot |
| Appointments.AppointmentService.RefreshAppointments | src/app/features/receptionist/services/appointment.service.ts:31-34 | the live list becomes the stored list |
| Appointments.AppointmentService.BookAppointment | src/app/features/receptionist/services/appointment.service.ts:36-98 | a missing field or a conflicting BOOKED appointment is an error that changes nothing; otherwise a BOOKED appointment is appended and written, after which the slot conflicts and is no longer offered |
| Appointments.AppointmentService.BookingTakesSlot | src/app/features/receptionist/services/appointment.service.ts:36-98 | once a BOOKED appointment is appended, its slot is held by some appointment and is no longer offered among the available slots |
| Appointments.AppointmentService.GetAppointmentsByDoctor | src/app/features/receptionist/services/appointment.service.ts:100-104 | exactly the BOOKED appointments of the doctor, in their original order; each kept record appears as many times as it is stored |
| Appointments.AppointmentService.UpdateAppointmentStatus | src/app/features/receptionist/services/appointment.service.ts:106-124 | an unknown id gives nothing and changes nothing; otherwise the first appointment with the id gets the status and update time and the list is written |
| Appointments.AppointmentService.CancelAppointment | src/app/features/receptionist/services/appointment.service.ts:159-168 | the same with status CANCELLED |
| Appointments.AppointmentService.DeleteAppointmentsByPatient | src/app/features/receptionist/services/appointment.service.ts:126-138 | the count is the number of the patient's appointments; afterwards none is left; the list is written only when the count is positive |
| Appointments.AppointmentService.SearchAppointments | src/app/features/receptionist/services/appointment.service.ts:140-153 | exactly the live appointments matching the normalised term, in their original order; each kept record appears as many times as it is stored |
| Appointments.AppointmentService.GetMyAppointments | src/app/features/receptionist/services/appointment.service.ts:155-157 | exactly the stored appointments of the patient, in stored order; each kept record appears as many times as it is stored |
| Appointments.AppointmentService.GetAvailableSlots | src/app/features/receptionist/services/appointment.service.ts:170-192 | the standard slots in standard order, each offered exactly when it does not conflict (`HasConflict`: a live BOOKED appointment of the doctor on that date holds it) |
| Appointments.FilterComplement | src/app/features/receptionist/services/appointment.service.ts:128-129 | the kept appointments and the removed count add up to the old list |
| Patients.PatientId | src/app/features/patient/services/patient.service.ts:57 | `PAT-` followed by the first eight characters of the UUID, upper-cased |
| Patients.Registered | src/app/features/patient/services/patient.service.ts:55-60 | the new patient has the draft's data, the generated id and the current time |
| Patients.VirtualPatient | src/app/features/patient/services/patient.service.ts:132-141 | a portal account shown as a patient keeps id, name and email; its phone is the account's or `Portal User`, never empty |
| Patients.PatientOrPortal | src/app/features/patient/services/patient.service.ts:122-147 | found exactly when a patient or a PATIENT account has the id; the first patient with the id wins; otherwise a virtual patient built from the first PATIENT account with the id |
| Patients.PatientService.RefreshPatients | src/app/features/patient/services/patient.service.ts:39-42 | the live list becomes the stored list |
| Patients.PatientService.RegisterPatient | src/app/features/patient/services/patient.service.ts:44-76 | a missing name or phone, or a phone already registered, is an error that changes nothing; otherwise the patient is appended and written, after which the phone is found; distinct phones stay distinct |
| Patients.PatientService.UpdatePatient | src/app/features/patient/services/patient.service.ts:78-99 | an unknown id is an error that changes nothing; otherwise the first record with the id is replaced with a fresh update time and written; ids never change |
| Patients.PatientService.DeletePatient | src/app/features/patient/services/patient.service.ts:101-120 | an unknown id is an error that changes nothing; otherwise the patient leaves the live list and none of their appointments is left in the live appointment list; the patient list and the appointment list are two separate writes, each stored exactly when its own write is accepted |
| Patients.PatientService.GetPatientById | src/app/features/patient/services/patient.service.ts:122-147 | the same lookup over the live patients and users: the first patient with the id, else a virtual patient from the first PATIENT account with it |
| Users.Pick | src/app/core/services/user.service.ts:67-68 | a given field wins over the default |
| Users.NewUser | src/app/core/services/user.service.ts:59-73 | a new user has the given or generated id, the normalised username, ACTIVE unless given, the given password or `password123`, an empty session token and the current time |
| Users.PatchedNoChange | src/app/core/services/user.service.ts:87 | an empty patch changes nothing |
| Users.PatchedIdempotent | src/app/core/services/user.service.ts:87-90 | applying the same patch twice with `Patched` equals applying it once |
| Users.PatchedKeeps | src/app/core/services/user.service.ts:87-90 | `Patched` keeps creation time, phone, session token, id and username unless the patch gives them; a given creation time or phone wins; a non-empty username is normalised, an empty one is taken as is |
| Users.ByUsername | src/app/core/services/user.service.ts:127-130 | found if and only if some user has the normalised username; what is found is the first such user, which matters because usernames need not be unique |
| Users.ByUsernameIgnoresCaseAndSpace | src/app/core/services/user.service.ts:128 | the lookup ignores letter case and surrounding white space |
| Users.AddedUserFound | src/app/core/services/user.service.ts:59-80 | a user added under a new username is found again by it in any letter case |
| Users.UserService.RefreshState | src/app/core/services/user.service.ts:47-49 | the live list becomes the stored list |
| Users.UserService.GetDoctors | src/app/core/services/user.service.ts:55-57 | exactly the ACTIVE doctors, in their original order; each kept record appears as many times as it is stored |
| Users.UserService.AddUser | src/app/core/services/user.service.ts:59-80 | the new user is appended and written; the live list is re-read from the store |
| Users.UserService.UpdateUser | src/app/core/services/user.service.ts:82-106 | an unknown id is an error that changes nothing; otherwise the first user with the id is patched and the list written |
| Users.UserService.DeleteUser | src/app/core/services/user.service.ts:108-125 | always succeeds; the list without the id is written; after a successful write no user has the id and every other user is kept |
| Users.UserService.GetUserByUsername | src/app/core/services/user.service.ts:127-130 | found if and only if a live user has the normalised username; what is found is the first such user |
| Billing.BillNumber | src/app/features/receptionist/services/billing.service.ts:25 | `BILL-` followed by the time in milliseconds |
| Billing.NewBill | src/app/features/receptionist/services/billing.service.ts:21-28 | the bill has the draft's data, the given id, the bill number and the current time |
| Billing.NewPayment | src/app/features/receptionist/services/billing.service.ts:34-40 | the payment has the draft's data, the given id and the current time |
| Billing.PaidAmountAppend | src/app/features/receptionist/services/billing.service.ts:53-54 | a new payment adds its amount to `PaidAmount` of its own bill and to no other |
| Billing.SettledStatus | src/app/features/receptionist/services/billing.service.ts:56-60 | PAID once the paid amount reaches the total; PARTIALLY_PAID when something but not all is paid; otherwise unchanged |
| Billing.WithSettledBill | src/app/features/receptionist/services/billing.service.ts:49-65 | only the first bill with the id gets the settled status; the others are kept |
| Billing.BillingService.RefreshBills | src/app/features/receptionist/services/billing.service.ts:17-19 | the live list becomes the stored list |
| Billing.BillingService.CreateBill | src/app/features/receptionist/services/billing.service.ts:21-32 | the new bill is appended to the stored bills; payments untouched |
| Billing.BillingService.UpdateBillStatus | src/app/features/receptionist/services/billing.service.ts:49-65 | an unknown bill changes nothing; otherwise the settled bills are written |
| Billing.PaymentSettlesBill | src/app/features/receptionist/services/billing.service.ts:34-65 | counting a new payment settles the first bill it is for on the old paid amount plus the payment, and changes no other bill |
| Billing.BillingService.RecordPayment | src/app/features/receptionist/services/billing.service.ts:34-47 | the payment has the draft's data; it is appended to the stored payments exactly when that write is accepted; an unknown bill is not touched; otherwise the bills settled on the stored payments are written, and stored exactly when that write is accepted; with both writes accepted the stored bills are `WithSettledBill` of the old bills and the old payments plus this one; with both refused nothing changes |
| Billing.BillingService.GetBillsByPatient | src/app/features/receptionist/services/billing.service.ts:67-69 | exactly the stored bills of the patient, in stored order; each kept record appears as many times as it is stored |
| Notifications.Severity | src/app/core/services/notification.service.ts:39-57 | the toast severity of each kind |
| Notifications.Icon | src/app/core/services/notification.service.ts:39-57 | the icon of each kind |
| Notifications.KindsDistinct | src/app/core/services/notification.service.ts:39-57 | each kind has its own severity and its own icon |
| Notifications.MarkedRead | src/app/core/services/notification.service.ts:84-90 | exactly the notifications with the id become read |
| Notifications.MarkedReadCount | src/app/core/services/notification.service.ts:23-25 | marking as read lowers `UnreadCount` by the unread notifications with the id, and doing it twice is doing it once |
| Notifications.PushUnread | src/app/core/services/notification.service.ts:79 | below the cap a new notification raises the unread count by one |
| Common.FindFirst | src/app/features/receptionist/services/opd.service.ts:143 | what `Common.Find` (`Array.prototype.find`) returns is the first match: no earlier element satisfies the test |
| Common.PushFront | src/app/core/services/notification.service.ts:79 | the new item first, then the old ones in order, cut to the cap |
| Notifications.NotificationService.Show | src/app/core/services/notification.service.ts:39-82 | one toast with five-second life; the notification goes in front, the list keeps at most 50 and is stored |
| Notifications.NotificationService.MarkAsRead | src/app/core/services/notification.service.ts:84-90 | the marked list is kept and stored; the unread count never rises |
| Notifications.NotificationService.ClearAll | src/app/core/services/notification.service.ts:92-95 | no notifications remain, none stored, none unread |
| Activities.InitialActivities | src/app/core/services/activity.service.ts:72-91 | two entries, ids 1 and 2, an hour and fifty minutes ago |
| Activities.Logged | src/app/core/services/activity.service.ts:59 | the new entry in front of at most 19 older ones |
| Activities.LoggedShifts | src/app/core/services/activity.service.ts:59 | each new entry pushes the older ones one place back |
| Activities.LogAll | src/app/core/services/activity.service.ts:43-61 | logging several entries keeps at most 20 and puts the last one first |
| Activities.ActivityService.SaveActivities | src/app/core/services/activity.service.ts:63-70 | a successful write replaces the list and stores it; a failed one changes nothing |
| Activities.ActivityService.LogActivity | src/app/core/services/activity.service.ts:43-61 | the entry is logged and stored when storage accepts it; the list never grows past 20 |
| Activities.ActivityService.LogMessage | src/app/core/services/activity.service.ts:43-48 | the same with the default icon, colour and kind |
| Errors.CodeOf | src/app/core/services/error-handler.service.ts:80-92 | a status has a specific code exactly when it is one of 0, 400, 401, 403, 404, 409, 422, 500; 401 is UNAUTHORIZED and 403 FORBIDDEN |
| Errors.StatusOf | src/app/core/services/error-handler.service.ts:80-92 | every code except UNKNOWN_ERROR has a status that produces it |
| Errors.CodeStatusRoundTrip | src/app/core/services/error-handler.service.ts:80-92 | the status of a known code maps back to the code, and a status maps to a known code exactly when it is one of the eight listed |
| Errors.ServerMessage | src/app/core/services/error-handler.service.ts:94-109 | the server's message wins; otherwise statuses 0, 401, 403, 404 and 500 get their own texts and any other status the `Error Code` text; never empty |
| Errors.Summary | src/app/core/services/error-handler.service.ts:111-120 | NETWORK_ERROR reads Connection Error, UNAUTHORIZED Authentication Failed, FORBIDDEN Access Denied, VALIDATION_ERROR Invalid Data, SERVER_ERROR System Error; every other code Unexpected Error |
| Errors.NormalizeError | src/app/core/services/error-handler.service.ts:26-48 | a client event is a NETWORK_ERROR with its message; a server error gets the code and message of its status |
| Errors.Step | src/app/core/services/error-handler.service.ts:131-143 | suppressed exactly when the message repeats within two seconds; only a shown message resets the window |
| Errors.RepeatSuppressed | src/app/core/services/error-handler.service.ts:131-143 | a shown message repeated within two seconds is suppressed; a different one never is |
| Errors.SteadyRepeatShownEveryOtherTime | src/app/core/services/error-handler.service.ts:131-143 | a message repeated every 1.5 s is shown, suppressed, shown |
| Errors.ErrorHandlerService.ShouldSuppress | src/app/core/services/error-handler.service.ts:131-143 | the decision and the new window are those of the debounce step |
| Errors.ErrorHandlerService.HandleError | src/app/core/services/error-handler.service.ts:53-78 | a suppressed error does nothing; otherwise 401 logs out and goes to `/login`, 403 goes to `/unauthorized`, and one error toast is shown; the notification list gains the error notification (the error title, the message, unread, the error icon) in front, cut to 50, and is stored |
| Analytics.IndexOf | src/app/core/services/analytics.service.ts:110 | the position of a label, or -1 exactly when absent |
| Analytics.Bump | src/app/core/services/analytics.service.ts:110 | a counter update adds the increment to the total, with a new counter for a new label |
| Analytics.LabelsSpec | src/app/core/services/analytics.service.ts:113 | the labels are distinct, cover every key and come only from keys |
| Analytics.TalliesSpec | src/app/core/services/analytics.service.ts:107-114 | each tally counts the items of its label that satisfy the test |
| Analytics.TalliesSum | src/app/core/services/analytics.service.ts:107-114 | the tallies add up to the number of items that satisfy the test |
| Analytics.DeptLabel | src/app/core/services/analytics.service.ts:109 | the token's department, or `General` exactly when it is empty |
| Analytics.DepartmentDistribution | src/app/core/services/analytics.service.ts:104-135 | distinct departments in order of first appearance, each with its token count; the counts add up to the number of tokens |
| Analytics.WorkloadStep | src/app/core/services/analytics.service.ts:160-166 | one loop turn extends the record by one token |
| Analytics.WorkloadRecord | src/app/core/services/analytics.service.ts:158-166 | the loop yields the labels and per-department waiting and completed counts |
| Analytics.WorkloadStats | src/app/core/services/analytics.service.ts:155-189 | no tokens gives `General` with zeros; otherwise per-department waiting and completed counts that add up to the active and completed tokens |
| Analytics.SlotOf | src/app/core/services/analytics.service.ts:76-82 | before 9 no slot; otherwise the two-hour slot from 9, and 19 or later the last |
| Analytics.Stamps | src/app/core/services/analytics.service.ts:68-72 | the patients' creation times, then the tokens', then the appointments', index by index |
| Analytics.SlotsCount | src/app/core/services/analytics.service.ts:74-84 | each bucket counts the stamps of today's date in its slot |
| Analytics.SlotsSum | src/app/core/services/analytics.service.ts:74-84 | the buckets add up to the stamps counted today, never more than all stamps |
| Analytics.SlotsIgnoreYear | src/app/core/services/analytics.service.ts:75 | the date test compares day and month only |
| Analytics.CountVisit | src/app/core/services/analytics.service.ts:74-83 | one stamp raises the bucket of its hour slot in place when it falls on today's day and month, and changes nothing otherwise |
| Analytics.DailyVisits | src/app/core/services/analytics.service.ts:57-102 | the loop over the stamps yields the six buckets, each its count |
| Analytics.Revenue | src/app/core/services/analytics.service.ts:137-153 | a multiple of 500 whose quotient is the number of appointments |
| Analytics.RevenueAdditive | src/app/core/services/analytics.service.ts:140 | revenue is additive over appointment lists |
| Analytics.PatientIds | src/app/core/services/analytics.service.ts:209-213 | exactly the patient ids of the patients, tokens and appointments; no more ids than records |
| Analytics.DashboardStats | src/app/core/services/analytics.service.ts:191-246 | three cards: unique patients, active tokens (the length of the full queue) and consultations done, each value the decimal text of its count |
| Pipes.Digits | src/app/shared/pipes/phone.pipe.ts:11 | only digits, never longer than the input |
| Pipes.DigitsAppend | src/app/shared/pipes/phone.pipe.ts:11 | stripping non-digits distributes over concatenation |
| Pipes.FormatPhone | src/app/shared/pipes/phone.pipe.ts:8-18 | falsy gives empty; ten digits give `+91 ` then five digits, a dash, five digits; anything else is shown unchanged |
| Pipes.FormattedDigits | src/app/shared/pipes/phone.pipe.ts:13-15 | a formatted number holds exactly `91` and its ten digits |
| Pipes.FormatPhoneIdempotent | src/app/shared/pipes/phone.pipe.ts:8-18 | formatting a formatted value changes nothing |
| Pipes.AgeYears | src/app/shared/pipes/age.pipe.ts:25-30 | the age is the number of birthdays passed: the age-th anniversary is not after today, the next one is |
| Pipes.AgeOnBirthday | src/app/shared/pipes/age.pipe.ts:25-30 | on the k-th birthday the age is k, the day before in the same month k - 1 |
| Pipes.AgeMonotone | src/app/shared/pipes/age.pipe.ts:25-30 | the age never falls as today advances, and rises at most one within a year |
| Pipes.AgeText | src/app/shared/pipes/age.pipe.ts:33 | a positive age reads `N years`; otherwise `Less than a year` |
| Pipes.FormatAge | src/app/shared/pipes/age.pipe.ts:9-34 | falsy or invalid gives empty; a number gives `N years`; a date gives the age text |
| Pipes.GenderIcon | src/app/shared/pipes/gender-icon.pipe.ts:8-26 | male or m gives the mars icon, female or f the venus icon, in any case; everything else the user icon |
| Pipes.GenderIconIgnoresCase | src/app/shared/pipes/gender-icon.pipe.ts:11 | the icon does not depend on letter case |
| DoctorQueuePage.StatusSeverity | src/app/features/doctor/pages/doctor-queue/doctor-queue.component.ts:118-129 | each status has its own tag colour |
| DoctorQueuePage.PrioritySeverity | src/app/features/doctor/pages/doctor-queue/doctor-queue.component.ts:131-140 | each priority has its own tag colour |
| DoctorQueuePage.PriorityLabel | src/app/features/doctor/pages/doctor-queue/doctor-queue.component.ts:142-151 | URGENT reads Emergency, HIGH reads High, NORMAL reads Normal |
| DoctorQueuePage.PriorityTagsDistinct | src/app/features/doctor/pages/doctor-queue/doctor-queue.component.ts:131-151 | different priorities have different labels and colours |
| DoctorQueuePage.DoctorQueueComponent.SyncQueue | src/app/features/doctor/pages/doctor-queue/doctor-queue.component.ts:78-87 | a token in consultation becomes current; a current token that left the queue is dropped; any current token is listed |
| DoctorQueuePage.DoctorQueueComponent.CallNext | src/app/features/doctor/pages/doctor-queue/doctor-queue.component.ts:91-95 | with a current token nothing happens; otherwise the token becomes current, and the first live token with its id goes into consultation and is written to `opd_tokens` (read back after a successful write); an unknown id writes nothing; the visits are never touched |
| DoctorQueuePage.DoctorQueueComponent.CompleteConsultation | src/app/features/doctor/pages/doctor-queue/doctor-queue.component.ts:97-111 | without a current token, or when completion fails, nothing changes; otherwise the token is COMPLETED, the page is reset, and each of the two writes states its own outcome: the tokens read back as the live list, and the visits gain the visit built from the token, diagnosis and notes, each only after a successful write |
| DoctorQueuePage.DoctorQueueComponent.OpenConsultationDialog | src/app/features/doctor/pages/doctor-queue/doctor-queue.component.ts:113-116 | the token becomes current and the dialog opens |

## Left out

- Browser event plumbing is not modelled: RxJS subjects and pipelines, `window` events, `share`. Each service keeps its list in a field. Each `*$` stream is a function of that field. The storage event stream is the `events` log of `DataSync.DataSyncService`.
- Service subscriptions to `onKeyUpdate` are not wired. Each re-read is a separate `Refresh…` method that a caller invokes after an announcement.
- JSON serialisation is not modelled. A stored cell is blank, corrupt or a parsed value. A parsed value of the wrong shape reads as the empty list, like a blank cell.
- Clocks, `crypto.randomUUID` and `Math.random` are parameters: `now`, `id`, `uuid`, `suffix`, `today`. An `Instant` carries its local day, its UTC day, its local hour and its epoch milliseconds. Date parsing and invalid dates are inputs to the age pipe and the analytics.
- Other side effects are not wired into the model. Activity entries and notifications emitted by the OPD, appointment, patient and user services, the logger, `isDevMode` logging and router navigation are left out. Navigation and logout appear only in the error handler, as counters and a route log. The activity and notification services themselves are modelled.
- The appointment follow-up of `completeVisit` is not modelled as part of the call. It runs after a dynamic import, so it is not atomic. `Opd.OpdService.CompleteVisit` returns the appointment id, and the follow-up is `Appointments.AppointmentService.UpdateAppointmentStatus` with COMPLETED.
- Money amounts are integers. The source's floating-point sums of decimal amounts are not modelled.
- Pipes.FormatPhone, Pipes.FormatAge: a number given to the pipes is an integer in the model. JavaScript turns a fractional number into text with its decimal point (`2.5` gives "2.5 years"; a fractional phone number keeps its digits but loses the point); fractions are not modelled.
- The user service imports the core `user.repository` (`src/app/core/services/user.service.ts:9`), which is not part of this model; the model wires it to `UserRepo.UserRepository`, the admin feature's repository, and so assumes the two behave the same.
- A failed notification storage write is not modelled. `Notifications.NotificationService` always stores its list. In the source, `saveToStorage` has no `try`, so a failing write would throw after the in-memory update.
- JavaScript `Object.keys` ordering is not modelled. The analytics charts list labels in order of first appearance. `Object.keys` would list integer-like department names first, in numeric order.
- Time zones are one abstract day per instant, plus its UTC day. Where the source mixes them, see Findings.
- Department codes: the three-letter prefix may coincide for two departments. The numbering lemmas are stated per department, so they do not claim distinct numbers across departments.
- `updateUser` with a field explicitly set to `undefined` is not modelled. A patch field is either absent or a value.
- Case mapping is ASCII only; Unicode case folding is not modelled. Trimming uses the full white-space set of JavaScript's `trim`.
- Authentication, guards, pages other than the doctor's queue, PDF export and the settings blob are not part of this model.
- `Appointments.AppointmentId`: only the `APT-` prefix is stated. The date stamp and the three-digit random suffix are built in the body.
- `Patients.PatientService.DeletePatient` requires that the patient and appointment services write through one storage object. The application has a single storage service, so this always holds.
- `Models.AppUser` has no `avatar` field. No modelled operation reads or sets it.
- `Models.Patient` has no `idNumber`, `occupation`, `bloodGroup`, `allergies`, `emergencyContact`, `medicalHistory` or `tokenNumber` field. No modelled operation reads them; registering and updating a patient would carry them through unchanged.
- `Patients.PatientService.GetPatientById`, `Patients.PatientOrPortal`: the source's patient service looks portal accounts up through the admin feature's user service, which is not part of this model. The model reads the user list of `Users.UserService` instead, and so assumes the admin service supplies the same list.
- `OpdQueue.SortQueueSpec`: states that the queue is sorted and a permutation of its input, not that tokens equal under the comparator (same priority, same millisecond) keep their input order, as the stable `Array.prototype.sort` does.
- `Notifications.Severity`, `Notifications.Icon`: the contracts give the ranges. `Notifications.KindsDistinct` gives that the maps are one-to-one, not which value each kind gets.

## Findings

| source | as written | input that shows it | evidently intended | confidence | as-written member | corrected member |
|---|---|---|---|---|---|---|
| src/app/features/receptionist/services/opd.service.ts:53-58 | The day stamp of a token number comes from the UTC date (`toISOString`). The running count restarts on each local date (`toDateString`). | Time zone UTC+5:30. A GENERAL token at 10:00 on 1 January 2025 is `GEN-20250101-001`. The first GENERAL token at 01:00 local on 2 January is still at 1 January 19:30 UTC, so it is also `GEN-20250101-001`. | Token numbers of one department are unique per day. Stamp and count use the same day. | not executed | `OpdQueue.TokenNumberAsWritten`, `OpdQueue.TokenNumberAsWrittenRepeats` | `OpdQueue.NewToken`, `OpdQueue.WellNumberedDistinct` |
