/**
 * The patient controller (backend/controllers/patientController.js): a
 * registry keyed by the unique `contact`, with get, update and delete by
 * id. Registration, update and deletion touch no ward and no doctor.
 */
module Patients {
  import opened Common
  import opened Models
  import opened Store
  import Query

  /**
   * The schema's validators on a whole patient document: the required
   * strings are non-empty and the enumerated fields hold one of their values.
   */
  predicate Validates(p: Patient) {
    && p.patientName != "" && p.patientCaste != "" && p.password != "" && p.contact != ""
    && p.gender in {"Male", "Female", "Other"}
    && p.status in {"Admitted", "Discharged"}
    && p.role in {"admin", "doctor", "patient"}
  }

  /** Some stored patient other than `except` has this contact or this email. */
  ghost predicate Collides(ps: map<Id, Patient>, except: Option<Id>, contact: string, email: Option<string>) {
    exists k :: k in ps && Some(k) != except && (ps[k].contact == contact || ps[k].email == email)
  }

  /** The filter `{ contact }`. */
  function WithContact(contact: string): (Id, Patient) -> bool {
    (k: Id, p: Patient) => p.contact == contact
  }

  /** The query the unique indexes on `contact` and `email` amount to. */
  function Clashing(except: Option<Id>, contact: string, email: Option<string>): (Id, Patient) -> bool {
    (k: Id, p: Patient) => Some(k) != except && (p.contact == contact || p.email == email)
  }

  /** Asks the unique indexes whether a write of `contact` and `email` would clash. */
  method FindClash(ps: map<Id, Patient>, except: Option<Id>, contact: string, email: Option<string>)
    returns (clash: bool)
    ensures clash <==> Collides(ps, except, contact, email)
  {
    var found := Query.FindOne(ps, Clashing(except, contact, email));
    clash := found.Some?;
  }

  /** The document `new Patient({...})` builds; the role and image take their defaults. */
  function NewPatient(patientName: string, patientCaste: string, email: Option<string>, password: string, age: int,
                      gender: string, contact: string, status: string, ward: Option<Id>, doctors: seq<Id>): Patient {
    Patient(patientName, patientCaste, email, password, age, gender, contact, status, ward, doctors,
            "", "patient", [], None)
  }

  /**
   * `registerPatient` as the schema needs it: a taken contact is refused
   * with 400; a document the validators reject (no age, no password, an
   * empty or unknown field value) or an email already held fails with 500;
   * otherwise exactly one patient is stored, carrying the hash of the
   * password. No ward and no doctor is touched.
   */
  method RegisterPatient(db: Db, hash: string -> string, patientName: string, patientCaste: string,
                         email: Option<string>, password: Option<string>, age: Option<int>, gender: string,
                         contact: string, status: string, ward: Option<Id>, doctors: Option<seq<Id>>)
    returns (r: Result<(Id, Patient)>)
    requires db.Valid()
    modifies db`patients, db`nextId
    ensures db.Valid()
    ensures Query.Any(old(db.patients), WithContact(contact)) ==>
      r == Err(400, "Patient with this contact number already exists!")
    ensures (!Query.Any(old(db.patients), WithContact(contact))
             && (age.None? || !Truthy(password)
                 || !Validates(NewPatient(patientName, patientCaste, email, hash(password.value), age.value, gender,
                                          contact, status, ward, doctors.GetOr([]))))) ==>
      r == Err(500, ServerError)
    ensures !Query.Any(old(db.patients), WithContact(contact)) && r.Err? ==> r == Err(500, ServerError)
    ensures r.Ok? <==>
      && !Query.Any(old(db.patients), WithContact(contact))
      && age.Some? && Truthy(password)
      && Validates(NewPatient(patientName, patientCaste, email, hash(password.value), age.value, gender,
                              contact, status, ward, doctors.GetOr([])))
      && !Collides(old(db.patients), None, contact, email)
    ensures r.Err? ==> db.patients == old(db.patients)
    ensures r.Ok? ==>
      && r.value.1 == NewPatient(patientName, patientCaste, email, hash(password.value), age.value, gender,
                                 contact, status, ward, doctors.GetOr([]))
      && r.value.1.password == hash(password.value)
      && r.value.0 !in old(db.patients)
      && db.patients == old(db.patients)[r.value.0 := r.value.1]
  {
    var existingPatient := Query.FindOne(db.patients, WithContact(contact));
    if existingPatient.Some? {
      return Err(400, "Patient with this contact number already exists!");
    }
    if age.None? || !Truthy(password) {
      return Err(500, ServerError);
    }
    var patient := NewPatient(patientName, patientCaste, email, hash(password.value), age.value, gender,
                              contact, status, ward, doctors.GetOr([]));
    if !Validates(patient) {
      return Err(500, ServerError);
    }
    var clash := FindClash(db.patients, None, contact, email);
    if clash {
      return Err(500, ServerError);
    }
    var id := db.InsertPatient(patient);
    r := Ok((id, patient));
  }

  /**
   * `registerPatient` as written: the request's password is never passed
   * to the document, so the schema's `required` check on `password` fails
   * every save. A new contact always ends in 500 and no patient is ever
   * stored.
   */
  method RegisterPatientAsWritten(db: Db, patientName: string, patientCaste: string, age: Option<int>,
                                  gender: string, contact: string, status: string, ward: Option<Id>,
                                  doctors: Option<seq<Id>>)
    returns (r: Result<(Id, Patient)>)
    requires db.Valid()
    modifies db`patients, db`nextId
    ensures db.Valid()
    ensures Query.Any(old(db.patients), WithContact(contact)) ==>
      r == Err(400, "Patient with this contact number already exists!")
    ensures !Query.Any(old(db.patients), WithContact(contact)) ==> r == Err(500, ServerError)
    ensures db.patients == old(db.patients)
  {
    r := RegisterPatient(db, (s: string) => s, patientName, patientCaste, None, None, age, gender, contact,
                         status, ward, doctors);
  }

  /** The filter `{}`. */
  function AnyPatient(): (Id, Patient) -> bool {
    (k: Id, p: Patient) => true
  }

  /**
   * `getAllPatients`: every patient. The list is always truthy, so the
   * failure branch of the controller cannot be taken, even with no patient.
   */
  method GetAllPatients(db: Db) returns (r: seq<(Id, Patient)>)
    ensures multiset(r) == multiset(Query.Selected(db.patients, AnyPatient()))
    ensures forall p :: p in r <==> p.0 in db.patients && p.1 == db.patients[p.0]
  {
    r := Query.Collect(db.patients, AnyPatient());
  }

  /** `getSinglePatient`. */
  method GetSinglePatient(db: Db, id: Id) returns (r: Result<Patient>)
    ensures r.Ok? <==> id in db.patients
    ensures r.Ok? ==> r.value == db.patients[id]
    ensures r.Err? ==> r == Err(404, "Patient not found!")
  {
    if id !in db.patients {
      return Err(404, "Patient not found!");
    }
    r := Ok(db.patients[id]);
  }

  /**
   * `deletePatient`: exactly that patient is removed; wards, doctors,
   * appointments and records that refer to it keep their references.
   */
  method DeletePatient(db: Db, id: Id) returns (r: Result<()>)
    requires db.Valid()
    modifies db`patients
    ensures db.Valid()
    ensures r.Ok? <==> id in old(db.patients)
    ensures r.Err? ==> r == Err(404, "Patient not found!") && db.patients == old(db.patients)
    ensures r.Ok? ==> db.patients == old(db.patients) - {id}
  {
    if id !in db.patients {
      return Err(404, "Patient not found!");
    }
    db.patients := db.patients - {id};
    r := Ok(());
  }

  /** The schema fields an update request may set; an absent field is None. */
  datatype PatientPatch = PatientPatch(
    patientName: Option<string>,
    patientCaste: Option<string>,
    email: Option<string>,
    password: Option<string>,
    age: Option<int>,
    gender: Option<string>,
    contact: Option<string>,
    status: Option<string>,
    ward: Option<Id>,
    doctors: Option<seq<Id>>,
    image: Option<string>,
    role: Option<string>,
    conditions: Option<seq<string>>,
    admissionDate: Option<Time>)

  /**
   * `runValidators` on an update: each given required string is non-empty
   * and each given enumerated value is one of its values.
   */
  predicate PatchValid(p: PatientPatch) {
    && (p.patientName.None? || p.patientName.value != "")
    && (p.patientCaste.None? || p.patientCaste.value != "")
    && (p.password.None? || p.password.value != "")
    && (p.contact.None? || p.contact.value != "")
    && (p.gender.None? || p.gender.value in {"Male", "Female", "Other"})
    && (p.status.None? || p.status.value in {"Admitted", "Discharged"})
    && (p.role.None? || p.role.value in {"admin", "doctor", "patient"})
  }

  /** `$set` of every given field. A given password is stored as sent, without hashing. */
  function ApplyPatch(t: Patient, p: PatientPatch): Patient {
    Patient(p.patientName.GetOr(t.patientName), p.patientCaste.GetOr(t.patientCaste),
            if p.email.Some? then p.email else t.email, p.password.GetOr(t.password),
            p.age.GetOr(t.age), p.gender.GetOr(t.gender), p.contact.GetOr(t.contact), p.status.GetOr(t.status),
            if p.ward.Some? then p.ward else t.ward, p.doctors.GetOr(t.doctors), p.image.GetOr(t.image),
            p.role.GetOr(t.role), p.conditions.GetOr(t.conditions),
            if p.admissionDate.Some? then p.admissionDate else t.admissionDate)
  }

  /** A valid update of a valid patient leaves a valid patient; repeating it changes nothing more. */
  lemma ApplyPatchValid(t: Patient, p: PatientPatch)
    requires Validates(t) && PatchValid(p)
    ensures Validates(ApplyPatch(t, p))
    ensures ApplyPatch(ApplyPatch(t, p), p) == ApplyPatch(t, p)
  {
  }

  /**
   * `updatePatient`: 404 for an unknown patient; a patch the validators
   * reject, or one giving the patient a contact or email another patient
   * holds, fails with 500 and changes nothing; otherwise the patch is set.
   * Contacts and emails therefore stay distinct.
   */
  method UpdatePatient(db: Db, id: Id, p: PatientPatch) returns (r: Result<Patient>)
    requires db.Valid()
    modifies db`patients
    ensures db.Valid()
    ensures id !in old(db.patients) ==> r == Err(404, "Patient not found!")
    ensures (id in old(db.patients)
             && (!PatchValid(p)
                 || Collides(old(db.patients), Some(id), ApplyPatch(old(db.patients)[id], p).contact,
                             ApplyPatch(old(db.patients)[id], p).email))) ==>
      r == Err(500, "Server encountered a problem!")
    ensures r.Ok? <==>
      && id in old(db.patients) && PatchValid(p)
      && !Collides(old(db.patients), Some(id), ApplyPatch(old(db.patients)[id], p).contact,
                   ApplyPatch(old(db.patients)[id], p).email)
    ensures r.Err? ==> db.patients == old(db.patients)
    ensures r.Ok? ==> r.value == ApplyPatch(old(db.patients)[id], p) && db.patients == old(db.patients)[id := r.value]
  {
    if id !in db.patients {
      return Err(404, "Patient not found!");
    }
    if !PatchValid(p) {
      return Err(500, "Server encountered a problem!");
    }
    var updated := ApplyPatch(db.patients[id], p);
    var clash := FindClash(db.patients, Some(id), updated.contact, updated.email);
    if clash {
      return Err(500, "Server encountered a problem!");
    }
    db.patients := db.patients[id := updated];
    r := Ok(updated);
  }
}
