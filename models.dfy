/**
 * The Mongoose schemas of the backend (the files under backend/models) as Dafny
 * datatypes. Enumerations become datatypes, defaults become the values the
 * controllers store, and the invariants that the stored documents keep are
 * predicates over one document or one collection.
 */
module Models {
  import opened Common

  // ---------------------------------------------------------------- Appointment

  /** The `status` enumeration of an appointment; new appointments are `Pending`. */
  datatype ApptStatus = Pending | Approved | Rejected | Rescheduled

  function StatusName(s: ApptStatus): string {
    match s
    case Pending => "pending"
    case Approved => "approved"
    case Rejected => "rejected"
    case Rescheduled => "rescheduled"
  }

  /** The request's status string, if it is one of the four names. */
  function ParseStatus(s: string): (r: Option<ApptStatus>)
    ensures r.Some? <==> s in {"pending", "approved", "rejected", "rescheduled"}
    ensures r.Some? ==> StatusName(r.value) == s
  {
    if s == "pending" then Some(Pending)
    else if s == "approved" then Some(Approved)
    else if s == "rejected" then Some(Rejected)
    else if s == "rescheduled" then Some(Rescheduled)
    else None
  }

  datatype Appointment = Appointment(
    patient: Id,
    doctor: Id,
    appointmentDateTime: Time,
    status: ApptStatus,
    notes: Option<string>)

  /** Only pending and approved appointments occupy the doctor's time slot. */
  predicate Blocks(a: Appointment, doctor: Id, at: Time) {
    a.doctor == doctor && a.appointmentDateTime == at && a.status in {Pending, Approved}
  }

  // ---------------------------------------------------------------- Billing

  /** The `status` enumeration of bills and invoices; new ones are `Unpaid`. */
  datatype BillStatus = Unpaid | Partial | Paid

  /** A line item as the client sends it. */
  datatype ItemInput = ItemInput(description: string, quantity: int, unitPrice: int, treatmentId: Option<Id>)

  /** A stored line item: the client's fields plus the computed `totalPrice`. */
  datatype LineItem = LineItem(description: string, quantity: int, unitPrice: int, totalPrice: int, treatmentId: Option<Id>)

  /** An entry of a bill's embedded `auditLogs` array (the field `method` is `paidBy` here, a Dafny keyword). */
  datatype PaymentLog = PaymentLog(action: string, amount: int, paidBy: string, date: Time)

  /** Money is a whole number of currency units (JavaScript numbers restricted to integers). */
  datatype Bill = Bill(
    patient: Id,
    items: seq<LineItem>,
    totalAmount: int,
    paidAmount: int,
    balance: int,
    status: BillStatus,
    auditLogs: seq<PaymentLog>)

  datatype Invoice = Invoice(bill: Id, invoiceNumber: string, date: Time, amount: int, status: BillStatus)

  /** A document of the separate AuditLog collection. */
  datatype AuditLog = AuditLog(action: string, billId: Id, userId: Option<string>, timestamp: Time, details: string)

  /** The sum of the amounts recorded in a bill's embedded payment log. */
  function PaymentsTotal(logs: seq<PaymentLog>): int {
    if logs == [] then 0 else PaymentsTotal(logs[..|logs| - 1]) + logs[|logs| - 1].amount
  }

  /**
   * The ledger invariant every stored bill keeps: the balance is what is
   * still owed, the paid amount is the sum of the logged payments (each
   * positive), an unpaid bill has no payment, and once a payment has been
   * made the balance is not negative and the bill is paid exactly when
   * nothing is owed.
   */
  ghost predicate LedgerConsistent(b: Bill) {
    && b.balance == b.totalAmount - b.paidAmount
    && b.paidAmount == PaymentsTotal(b.auditLogs)
    && (forall i :: 0 <= i < |b.auditLogs| ==>
          b.auditLogs[i].amount > 0 && b.auditLogs[i].action == "payment_added")
    && (b.status == Unpaid <==> b.auditLogs == [])
    && (b.auditLogs != [] ==> b.balance >= 0 && (b.status == Paid <==> b.balance == 0))
  }

  // ---------------------------------------------------------------- Notification

  /** The `role` enumeration of notifications; the default is `PatientRole`. */
  datatype Role = PatientRole | AdminRole | DoctorRole

  /** `type` of the schema is `kind` here (a Dafny keyword). */
  datatype Notification = Notification(
    user: Option<Id>,
    role: Role,
    kind: string,
    message: string,
    isRead: bool,
    createdAt: Time)

  // ---------------------------------------------------------------- Treatment record

  datatype Transfer = Transfer(previousWardId: Option<Id>, newWardId: Option<Id>, transferredAt: Time)

  /**
   * A treatment record: `treatmentDetails` is required, `admissionDate`
   * defaults to the creation time, `transferHistory` to the empty list and
   * `transferred` to false.
   */
  datatype TreatmentRecord = TreatmentRecord(
    patientId: Id,
    doctorId: Option<Id>,
    wardId: Option<Id>,
    treatmentDetails: string,
    admissionDate: Time,
    transferHistory: seq<Transfer>,
    transferred: bool)

  // ---------------------------------------------------------------- Doctor, team

  datatype Grade = Junior | Senior

  /**
   * A doctor. `email`, `password` and `specialty` are not declared by the
   * doctor schema; login and the login response read them, so they are
   * optional here and absent on every doctor the doctor controller creates.
   * The two reference lists may hold null entries (None).
   */
  datatype Doctor = Doctor(
    name: string,
    grade: Grade,
    team: Id,
    treatedPatients: seq<Option<Id>>,
    juniorDoctors: seq<Option<Id>>,
    image: string,
    wards: seq<Id>,
    email: Option<string>,
    password: Option<string>,
    specialty: Option<string>)

  datatype Team = Team(name: string, department: string, consultant: Option<Id>, juniorDoctors: seq<Id>)

  // ---------------------------------------------------------------- Patient, ward, auth

  datatype Patient = Patient(
    patientName: string,
    patientCaste: string,
    email: Option<string>,
    password: string,
    age: int,
    gender: string,
    contact: string,
    status: string,
    ward: Option<Id>,
    doctors: seq<Id>,
    image: string,
    role: string,
    conditions: seq<string>,
    admissionDate: Option<Time>)

  datatype WardType = Male | Female | Kids | Other

  /** A ward's `capacity` is at least 1 (the schema's `min: 1`). */
  type Capacity = c: int | c >= 1 witness 1

  /** `occupiedBeds` defaults to 0; nothing ties it to `capacity` or to `patients`. */
  datatype Ward = Ward(
    wardName: string,
    wardType: WardType,
    capacity: Capacity,
    occupiedBeds: int,
    patients: seq<Id>)

  /** A user of the Auth collection; `password` holds the bcrypt hash. */
  datatype AuthUser = AuthUser(name: string, email: string, password: string, role: Option<string>)

  // ---------------------------------------------------------------- Unique indexes

  /** The unique index on `Patient.contact`. */
  ghost predicate ContactsDistinct(ps: map<Id, Patient>) {
    forall i, j :: i in ps && j in ps && i != j ==> ps[i].contact != ps[j].contact
  }

  /**
   * The unique index on `Patient.email`. The index is not sparse, so a
   * patient without an email occupies the key `null`: at most one may lack it.
   */
  ghost predicate PatientEmailsDistinct(ps: map<Id, Patient>) {
    forall i, j :: i in ps && j in ps && i != j ==> ps[i].email != ps[j].email
  }

  /** The unique index on `Ward.wardName`. */
  ghost predicate WardNamesDistinct(ws: map<Id, Ward>) {
    forall i, j :: i in ws && j in ws && i != j ==> ws[i].wardName != ws[j].wardName
  }

  /** The unique index on `Invoice.invoiceNumber`. */
  ghost predicate InvoiceNumbersDistinct(vs: map<Id, Invoice>) {
    forall i, j :: i in vs && j in vs && i != j ==> vs[i].invoiceNumber != vs[j].invoiceNumber
  }

  /** The unique index on `Auth.email`. */
  ghost predicate EmailsDistinct(us: map<Id, AuthUser>) {
    forall i, j :: i in us && j in us && i != j ==> us[i].email != us[j].email
  }
}
