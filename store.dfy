/**
 * The MongoDB database: one map from document id to document per
 * collection. Every document id comes from one counter, standing for
 * ObjectId generation, so an id never names two documents.
 */
module Store {
  import opened Common
  import opened Models

  class Db {
    var patients: map<Id, Patient>
    var doctors: map<Id, Doctor>
    var wards: map<Id, Ward>
    var teams: map<Id, Team>
    var users: map<Id, AuthUser>
    var appointments: map<Id, Appointment>
    var notifications: map<Id, Notification>
    var records: map<Id, TreatmentRecord>
    var bills: map<Id, Bill>
    var invoices: map<Id, Invoice>
    var auditLogs: map<Id, AuditLog>
    var nextId: Id

    /** Every id in use was issued before `nextId`. */
    ghost predicate IdsIssued()
      reads this
    {
      && (forall k :: k in patients ==> k < nextId)
      && (forall k :: k in doctors ==> k < nextId)
      && (forall k :: k in wards ==> k < nextId)
      && (forall k :: k in teams ==> k < nextId)
      && (forall k :: k in users ==> k < nextId)
      && (forall k :: k in appointments ==> k < nextId)
      && (forall k :: k in notifications ==> k < nextId)
      && (forall k :: k in records ==> k < nextId)
      && (forall k :: k in bills ==> k < nextId)
      && (forall k :: k in invoices ==> k < nextId)
      && (forall k :: k in auditLogs ==> k < nextId)
    }

    /**
     * The database invariant: ids are issued by the counter, every bill
     * keeps its ledger, the unique indexes hold, and every treatment record
     * has its required details.
     */
    ghost predicate Valid()
      reads this
    {
      && IdsIssued()
      && BillingValid()
      && ContactsDistinct(patients)
      && PatientEmailsDistinct(patients)
      && WardNamesDistinct(wards)
      && EmailsDistinct(users)
      && (forall k :: k in records ==> records[k].treatmentDetails != "")
    }

    /**
     * Every bill keeps its ledger; invoice numbers are distinct; every
     * invoice and every entry of the AuditLog collection belongs to a stored
     * bill, and that collection only ever receives bill creations.
     */
    ghost predicate BillingValid()
      reads this
    {
      && (forall k :: k in bills ==> LedgerConsistent(bills[k]))
      && InvoiceNumbersDistinct(invoices)
      && (forall k :: k in invoices ==> invoices[k].bill in bills)
      && (forall k :: k in auditLogs ==> auditLogs[k].action == "CREATE_BILL" && auditLogs[k].billId in bills)
    }

    constructor ()
      ensures Valid()
      ensures patients == map[] && doctors == map[] && wards == map[] && teams == map[]
      ensures users == map[] && appointments == map[] && notifications == map[]
      ensures records == map[] && bills == map[] && invoices == map[] && auditLogs == map[]
    {
      patients, doctors, wards, teams, users := map[], map[], map[], map[], map[];
      appointments, notifications, records := map[], map[], map[];
      bills, invoices, auditLogs := map[], map[], map[];
      nextId := 0;
    }

    /** A new ObjectId: one that no document of any collection carries yet. */
    method NewId() returns (id: Id)
      requires IdsIssued()
      modifies this`nextId
      ensures IdsIssued()
      ensures id == old(nextId) && nextId == id + 1
      ensures id !in patients && id !in doctors && id !in wards && id !in teams && id !in users
      ensures id !in appointments && id !in notifications && id !in records
      ensures id !in bills && id !in invoices && id !in auditLogs
    {
      id := nextId;
      nextId := nextId + 1;
    }

    /** `new Billing(b).save()`: a bill that keeps its ledger. */
    method InsertBill(b: Bill) returns (id: Id)
      requires Valid() && LedgerConsistent(b)
      modifies this`bills, this`nextId
      ensures Valid()
      ensures id == old(nextId) && id !in old(bills) && bills == old(bills)[id := b]
    {
      id := NewId();
      bills := bills[id := b];
    }

    /** `new Invoice(v).save()` for a stored bill, under a number not yet taken. */
    method InsertInvoice(v: Invoice) returns (id: Id)
      requires Valid() && v.bill in bills
      requires forall k :: k in invoices ==> invoices[k].invoiceNumber != v.invoiceNumber
      modifies this`invoices, this`nextId
      ensures Valid()
      ensures id == old(nextId) && id !in old(invoices) && invoices == old(invoices)[id := v]
    {
      id := NewId();
      invoices := invoices[id := v];
    }

    /** `new AuditLog(l).save()`: the creation entry of a stored bill. */
    method InsertAuditLog(l: AuditLog) returns (id: Id)
      requires Valid() && l.action == "CREATE_BILL" && l.billId in bills
      modifies this`auditLogs, this`nextId
      ensures Valid()
      ensures id == old(nextId) && id !in old(auditLogs) && auditLogs == old(auditLogs)[id := l]
    {
      id := NewId();
      auditLogs := auditLogs[id := l];
    }

    /** `new Appointment(a).save()`. */
    method InsertAppointment(a: Appointment) returns (id: Id)
      requires Valid()
      modifies this`appointments, this`nextId
      ensures Valid()
      ensures id == old(nextId) && id !in old(appointments) && appointments == old(appointments)[id := a]
    {
      id := NewId();
      appointments := appointments[id := a];
    }

    /** `Notification.create(n)`. */
    method InsertNotification(n: Notification) returns (id: Id)
      requires Valid()
      modifies this`notifications, this`nextId
      ensures Valid()
      ensures id == old(nextId) && id !in old(notifications) && notifications == old(notifications)[id := n]
    {
      id := NewId();
      notifications := notifications[id := n];
    }

    /** `new TreatmentRecord(t).save()`, which passes the `required` validator. */
    method InsertRecord(t: TreatmentRecord) returns (id: Id)
      requires Valid() && t.treatmentDetails != ""
      modifies this`records, this`nextId
      ensures Valid()
      ensures id == old(nextId) && id !in old(records) && records == old(records)[id := t]
    {
      id := NewId();
      records := records[id := t];
    }

    /** `new Doctor(d).save()`. */
    method InsertDoctor(d: Doctor) returns (id: Id)
      requires Valid()
      modifies this`doctors, this`nextId
      ensures Valid()
      ensures id == old(nextId) && id !in old(doctors) && doctors == old(doctors)[id := d]
    {
      id := NewId();
      doctors := doctors[id := d];
    }

    /** `new Team(t).save()`. */
    method InsertTeam(t: Team) returns (id: Id)
      requires Valid()
      modifies this`teams, this`nextId
      ensures Valid()
      ensures id == old(nextId) && id !in old(teams) && teams == old(teams)[id := t]
    {
      id := NewId();
      teams := teams[id := t];
    }

    /** `new Patient(p).save()` with a contact and an email the unique indexes do not hold yet. */
    method InsertPatient(p: Patient) returns (id: Id)
      requires Valid()
      requires forall k :: k in patients ==> patients[k].contact != p.contact && patients[k].email != p.email
      modifies this`patients, this`nextId
      ensures Valid()
      ensures id == old(nextId) && id !in old(patients) && patients == old(patients)[id := p]
    {
      id := NewId();
      patients := patients[id := p];
    }

    /** `new Ward(w).save()` with a name the unique index does not hold yet. */
    method InsertWard(w: Ward) returns (id: Id)
      requires Valid()
      requires forall k :: k in wards ==> wards[k].wardName != w.wardName
      modifies this`wards, this`nextId
      ensures Valid()
      ensures id == old(nextId) && id !in old(wards) && wards == old(wards)[id := w]
    {
      id := NewId();
      wards := wards[id := w];
    }

    /** `new Auth(u).save()` with an email the unique index does not hold yet. */
    method InsertUser(u: AuthUser) returns (id: Id)
      requires Valid()
      requires forall k :: k in users ==> users[k].email != u.email
      modifies this`users, this`nextId
      ensures Valid()
      ensures id == old(nextId) && id !in old(users) && users == old(users)[id := u]
    {
      id := NewId();
      users := users[id := u];
    }
  }
}
