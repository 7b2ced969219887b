/** The records the OPD application stores (core/models): tokens and visits,
    appointments, patients, users, bills and payments, clinical notes,
    prescriptions and vitals, and the shape of each stored collection. */
module Models {
  import opened Common
  import opened Strings

  /** A calendar date; `month` counts from 1. */
  datatype Day = Day(year: nat, month: nat, dom: nat)

  /** `yyyymmdd`, as `toISOString().slice(0, 10)` with the dashes removed. */
  function DateStamp(d: Day): (r: string)
    ensures |r| >= 8
  {
    PadStart(NatToString(d.year), 4, '0') + PadStart(NatToString(d.month), 2, '0') + PadStart(NatToString(d.dom), 2, '0')
  }

  /** The stamp is all digits; for a four-digit year it is eight long and its
      parts read back as year, month and day. */
  lemma DateStampDigits(d: Day)
    ensures AllDigits(DateStamp(d))
    ensures d.year < 10000 && d.month < 100 && d.dom < 100 ==>
      && |DateStamp(d)| == 8
      && AllDigits(DateStamp(d)[..4]) && ParseDigits(DateStamp(d)[..4]) == d.year
      && AllDigits(DateStamp(d)[4..6]) && ParseDigits(DateStamp(d)[4..6]) == d.month
      && AllDigits(DateStamp(d)[6..]) && ParseDigits(DateStamp(d)[6..]) == d.dom
  {
    var y, m, dd := PadStart(NatToString(d.year), 4, '0'), PadStart(NatToString(d.month), 2, '0'), PadStart(NatToString(d.dom), 2, '0');
    PaddedDigits(d.year, 4);
    PaddedDigits(d.month, 2);
    PaddedDigits(d.dom, 2);
    Pow10Small();
    DigitsConcat(y, m);
    DigitsConcat(y + m, dd);
    SliceThree(y, m, dd);
  }

  /** A moment: its local calendar day, its calendar day in UTC (the two differ
      for part of every day outside UTC), its local hour and its milliseconds
      since the epoch. The clock supplies all four; the model does not relate them. */
  datatype Instant = Instant(day: Day, utcDay: Day, hour: nat, epochMs: int)

  /** The department enumeration is not part of this model: any name is allowed. */
  type Department = string

  datatype TokenStatus = CheckedIn | InConsultation | Completed | Cancelled

  datatype Priority = Urgent | High | Normal

  datatype VisitType = WalkIn | Emergency | FromAppointment

  /** A patient's ticket through a department queue. */
  datatype OpdToken = OpdToken(
    id: string,
    tokenNumber: string,
    department: Department,
    patientId: string,
    patientName: string,
    doctorId: Option<string>,
    visitType: VisitType,
    status: TokenStatus,
    priority: Priority,
    appointmentId: Option<string>,
    queuePosition: int,
    consultationStartedAt: Option<Instant>,
    createdAt: Instant,
    updatedAt: Instant)

  /** The record written once when a consultation completes. */
  datatype Visit = Visit(
    id: string,
    tokenNumber: string,
    patientId: string,
    doctorId: string,
    department: Department,
    date: Instant,
    diagnosis: string,
    notes: string)

  /** `Legacy` carries a status string stored by older versions, such as 'SCHEDULED'. */
  datatype AppointmentStatus = Booked | CheckedIn | Completed | Cancelled | Legacy(name: string)

  datatype Appointment = Appointment(
    id: string,
    patientId: string,
    patientName: string,
    patientPhone: Option<string>,
    doctorId: string,
    doctorName: string,
    department: Department,
    appointmentDate: Day,
    timeSlot: string,
    reason: string,
    status: AppointmentStatus,
    createdAt: Instant,
    updatedAt: Instant)

  /** What a caller hands to `bookAppointment`: an appointment without id, status
      and timestamps; a missing date is `None`. */
  datatype AppointmentRequest = AppointmentRequest(
    patientId: string,
    patientName: string,
    patientPhone: Option<string>,
    doctorId: string,
    doctorName: string,
    department: Department,
    appointmentDate: Option<Day>,
    timeSlot: string,
    reason: string)

  datatype Patient = Patient(
    id: string,
    fullName: string,
    phone: string,
    email: Option<string>,
    gender: Option<string>,
    age: Option<int>,
    dob: Option<Day>,
    address: Option<string>,
    createdAt: Instant,
    updatedAt: Instant)

  /** What a caller hands to `registerPatient`: a patient without id and timestamps. */
  datatype PatientDraft = PatientDraft(
    fullName: string,
    phone: string,
    email: Option<string>,
    gender: Option<string>,
    age: Option<int>,
    dob: Option<Day>,
    address: Option<string>)

  datatype UserRole = Admin | Doctor | Receptionist | PatientUser | OtherRole(name: string)

  datatype UserStatus = Active | Inactive

  datatype AppUser = AppUser(
    id: string,
    username: string,
    fullName: string,
    role: UserRole,
    email: string,
    status: UserStatus,
    password: Option<string>,
    department: Option<Department>,
    phone: Option<string>,
    gender: Option<string>,
    age: Option<int>,
    token: string,
    lastLogin: Option<Instant>,
    createdAt: Instant,
    updatedAt: Instant)

  datatype BillStatus = Unpaid | PartiallyPaid | Paid | Cancelled

  datatype BillItem = BillItem(description: string, category: string, quantity: int, unitPrice: int, total: int)

  /** Amounts are whole numbers of the currency's smallest unit. */
  datatype Bill = Bill(
    id: string,
    billNumber: string,
    patientId: string,
    visitId: string,
    date: Instant,
    items: seq<BillItem>,
    subTotal: int,
    taxAmount: int,
    discountAmount: int,
    totalAmount: int,
    status: BillStatus,
    createdAt: Instant,
    updatedAt: Instant)

  /** What a caller hands to `createBill`: a bill without id, number and timestamps. */
  datatype BillDraft = BillDraft(
    patientId: string,
    visitId: string,
    date: Instant,
    items: seq<BillItem>,
    subTotal: int,
    taxAmount: int,
    discountAmount: int,
    totalAmount: int,
    status: BillStatus)

  datatype PaymentMethod = Cash | Card | Upi | Insurance | OtherMethod

  datatype Payment = Payment(
    id: string,
    billId: string,
    amount: int,
    paymentMethod: PaymentMethod,
    transactionId: Option<string>,
    date: Instant,
    createdAt: Instant,
    updatedAt: Instant)

  /** What a caller hands to `recordPayment`: a payment without id and timestamps. */
  datatype PaymentDraft = PaymentDraft(
    billId: string,
    amount: int,
    paymentMethod: PaymentMethod,
    transactionId: Option<string>,
    date: Instant)

  datatype ClinicalNote = ClinicalNote(
    id: string,
    patientId: string,
    doctorId: string,
    visitId: string,
    date: Instant,
    complaints: seq<string>,
    history: Option<string>,
    examination: Option<string>,
    diagnosis: Option<string>,
    plan: Option<string>,
    appointmentId: Option<string>)

  datatype PrescriptionItem = PrescriptionItem(
    medicineName: string,
    dosage: string,
    frequency: string,
    duration: string,
    timing: string,
    route: string,
    totalQuantity: int)

  datatype Prescription = Prescription(
    id: string,
    patientId: string,
    doctorId: string,
    visitId: string,
    date: Instant,
    medicines: seq<PrescriptionItem>,
    instructions: Option<string>,
    followUpDate: Option<Day>,
    appointmentId: Option<string>)

  /** Measurements are decimal numbers in the source. */
  datatype Vitals = Vitals(
    id: string,
    patientId: string,
    appointmentId: Option<string>,
    visitId: Option<string>,
    recordedBy: string,
    recordedAt: Instant,
    temperature: Option<real>,
    pulse: Option<real>,
    systolic: Option<real>,
    diastolic: Option<real>,
    respiratoryRate: Option<real>,
    spo2: Option<real>,
    weight: Option<real>,
    height: Option<real>,
    bmi: Option<real>,
    notes: Option<string>)

  /** The value stored under one key of the key-value store: one whole collection. */
  datatype Doc =
    | TokenList(tokens: seq<OpdToken>)
    | VisitList(visits: seq<Visit>)
    | AppointmentList(appointments: seq<Appointment>)
    | PatientList(patients: seq<Patient>)
    | UserList(users: seq<AppUser>)
    | BillList(bills: seq<Bill>)
    | PaymentList(payments: seq<Payment>)
    | NoteList(notes: seq<ClinicalNote>)
    | PrescriptionList(prescriptions: seq<Prescription>)
    | VitalsList(vitals: seq<Vitals>)

  /** JavaScript truthiness of an optional string: present and not empty. */
  predicate Truthy(s: Option<string>)
  {
    s.Some? && s.value != ""
  }
}
