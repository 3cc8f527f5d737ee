/**
 * The treatment-record controller
 * (backend/controllers/treatmentRecordController.js): existence-checked
 * creation, the keep-unless-truthy update, deletion and the queries.
 */
module TreatmentRecords {
  import opened Common
  import opened Models
  import opened Store
  import Query

  /**
   * `addTreatmentRecord`: the patient, then the doctor, then the ward (only
   * when a ward id is given) must exist; the record is then saved, and the
   * schema's `required` validator turns missing or empty details into 500.
   * The request's `notes` has no field in the schema and is dropped.
   */
  method AddTreatmentRecord(db: Db, patientId: Id, doctorId: Id, wardId: Option<Id>,
                            treatmentDetails: Option<string>, now: Time)
    returns (r: Result<(Id, TreatmentRecord)>)
    requires db.Valid()
    modifies db`records, db`nextId
    ensures db.Valid()
    ensures patientId !in db.patients ==> r == Err(404, "Patient not found!")
    ensures patientId in db.patients && doctorId !in db.doctors ==> r == Err(404, "Doctor not found!")
    ensures patientId in db.patients && doctorId in db.doctors && wardId.Some? && wardId.value !in db.wards ==>
      r == Err(404, "Ward not found!")
    ensures (patientId in db.patients && doctorId in db.doctors && (wardId.None? || wardId.value in db.wards)
             && !Truthy(treatmentDetails)) ==> r == Err(500, ServerError)
    ensures r.Ok? <==> (patientId in db.patients && doctorId in db.doctors
                        && (wardId.None? || wardId.value in db.wards) && Truthy(treatmentDetails))
    ensures r.Err? ==> db.records == old(db.records)
    ensures r.Ok? ==>
      && r.value.1 == TreatmentRecord(patientId, Some(doctorId), wardId, treatmentDetails.value, now, [], false)
      && r.value.0 !in old(db.records)
      && db.records == old(db.records)[r.value.0 := r.value.1]
  {
    if patientId !in db.patients {
      return Err(404, "Patient not found!");
    }
    if doctorId !in db.doctors {
      return Err(404, "Doctor not found!");
    }
    if wardId.Some? && wardId.value !in db.wards {
      return Err(404, "Ward not found!");
    }
    if !Truthy(treatmentDetails) {
      return Err(500, ServerError);
    }
    var record := TreatmentRecord(patientId, Some(doctorId), wardId, treatmentDetails.value, now, [], false);
    var id := db.InsertRecord(record);
    r := Ok((id, record));
  }

  /** The body of an update request; an absent (or empty) field is None. */
  datatype RecordPatch = RecordPatch(
    patientId: Option<Id>,
    doctorId: Option<Id>,
    wardId: Option<Id>,
    treatmentDetails: Option<string>)

  /** Each field takes the request's value when it is truthy and keeps its own otherwise. */
  function Amend(t: TreatmentRecord, p: RecordPatch): TreatmentRecord {
    t.(patientId := p.patientId.GetOr(t.patientId),
       doctorId := if p.doctorId.Some? then p.doctorId else t.doctorId,
       wardId := if p.wardId.Some? then p.wardId else t.wardId,
       treatmentDetails := if Truthy(p.treatmentDetails) then p.treatmentDetails.value else t.treatmentDetails)
  }

  /** An empty request changes nothing. */
  lemma AmendEmpty(t: TreatmentRecord)
    ensures Amend(t, RecordPatch(None, None, None, None)) == t
  {
  }

  /** Applying the same request twice is the same as applying it once. */
  lemma AmendIdempotent(t: TreatmentRecord, p: RecordPatch)
    ensures Amend(Amend(t, p), p) == Amend(t, p)
  {
  }

  /**
   * An update can never clear a field: every field of the result is either
   * the request's value or the old one, and the details stay non-empty.
   */
  lemma AmendKeepsFields(t: TreatmentRecord, p: RecordPatch)
    ensures Amend(t, p).patientId in {t.patientId} + (if p.patientId.Some? then {p.patientId.value} else {})
    ensures t.doctorId.Some? ==> Amend(t, p).doctorId.Some?
    ensures t.wardId.Some? ==> Amend(t, p).wardId.Some?
    ensures t.treatmentDetails != "" ==> Amend(t, p).treatmentDetails != ""
    ensures Amend(t, p).admissionDate == t.admissionDate && Amend(t, p).transferHistory == t.transferHistory
    ensures Amend(t, p).transferred == t.transferred
  {
  }

  /**
   * `updateTreatmentRecord`: the loaded record's fields are reassigned one
   * by one and saved. The new patient, doctor and ward ids are not checked
   * against their collections.
   */
  method UpdateTreatmentRecord(db: Db, id: Id, p: RecordPatch) returns (r: Result<TreatmentRecord>)
    requires db.Valid()
    modifies db`records
    ensures db.Valid()
    ensures r.Ok? <==> id in old(db.records)
    ensures r.Err? ==> r == Err(404, "Treatment Record not found!") && db.records == old(db.records)
    ensures r.Ok? ==> r.value == Amend(old(db.records)[id], p) && db.records == old(db.records)[id := r.value]
  {
    if id !in db.records {
      return Err(404, "Treatment Record not found!");
    }
    var record := db.records[id];
    if p.patientId.Some? {
      record := record.(patientId := p.patientId.value);
    }
    if p.doctorId.Some? {
      record := record.(doctorId := p.doctorId);
    }
    if p.wardId.Some? {
      record := record.(wardId := p.wardId);
    }
    if Truthy(p.treatmentDetails) {
      record := record.(treatmentDetails := p.treatmentDetails.value);
    }
    db.records := db.records[id := record];
    r := Ok(record);
  }

  /** `deleteTreatmentRecord`: exactly the named record is removed. */
  method DeleteTreatmentRecord(db: Db, id: Id) returns (r: Result<()>)
    requires db.Valid()
    modifies db`records
    ensures db.Valid()
    ensures r.Ok? <==> id in old(db.records)
    ensures r.Err? ==> r == Err(404, "Treatment Record not found!") && db.records == old(db.records)
    ensures r.Ok? ==> db.records == old(db.records) - {id}
  {
    if id !in db.records {
      return Err(404, "Treatment Record not found!");
    }
    db.records := db.records - {id};
    r := Ok(());
  }

  /** `getSingleTreatmentRecord`. */
  method GetSingleTreatmentRecord(db: Db, id: Id) returns (r: Result<TreatmentRecord>)
    ensures r.Ok? <==> id in db.records
    ensures r.Ok? ==> r.value == db.records[id]
    ensures r.Err? ==> r == Err(404, "Treatment Record not found!")
  {
    if id !in db.records {
      return Err(404, "Treatment Record not found!");
    }
    r := Ok(db.records[id]);
  }

  /** The filter `{}`. */
  function AnyRecord(): (Id, TreatmentRecord) -> bool {
    (k: Id, t: TreatmentRecord) => true
  }

  /** `getAllTreatmentRecords`: every record, and success also when there is none. */
  method GetAllTreatmentRecords(db: Db) returns (r: seq<(Id, TreatmentRecord)>)
    ensures multiset(r) == multiset(Query.Selected(db.records, AnyRecord()))
    ensures forall p :: p in r <==> p.0 in db.records && p.1 == db.records[p.0]
  {
    r := Query.Collect(db.records, AnyRecord());
  }

  /** The filter `{ patientId }`. */
  function OfPatient(patientId: Id): (Id, TreatmentRecord) -> bool {
    (k: Id, t: TreatmentRecord) => t.patientId == patientId
  }

  /** `getTreatmentRecordsByPatientId`: exactly the records of that patient. */
  method GetTreatmentRecordsByPatientId(db: Db, patientId: Id) returns (r: seq<(Id, TreatmentRecord)>)
    ensures multiset(r) == multiset(Query.Selected(db.records, OfPatient(patientId)))
    ensures forall p :: p in r <==> p.0 in db.records && p.1 == db.records[p.0] && p.1.patientId == patientId
  {
    r := Query.Collect(db.records, OfPatient(patientId));
  }
}
