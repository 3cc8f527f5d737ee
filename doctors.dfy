/**
 * The doctor controller (backend/controllers/doctorController.js): a
 * registry keyed by (name, team), with get, update and delete by id and
 * the `$addToSet` that records a treated patient.
 */
module Doctors {
  import opened Common
  import opened Models
  import opened Store
  import Query

  /** The `grade` enumeration as the request spells it. */
  function ParseGrade(s: string): (r: Option<Grade>)
    ensures r.Some? <==> s == "Junior" || s == "Senior"
    ensures r == Some(Junior) <==> s == "Junior"
  {
    if s == "Junior" then Some(Junior) else if s == "Senior" then Some(Senior) else None
  }

  /**
   * A list field of the request: an array (whose elements may be null), a
   * single value, or absent (`undefined` or `null`).
   */
  datatype IdsParam = IdArray(ids: seq<Option<Id>>) | Single(id: Id) | Absent

  /**
   * `Array.isArray(v) ? v : [v]`: an array is kept as it is and anything
   * else is wrapped in a one-element list, so an absent value becomes the
   * list holding one null reference.
   */
  function AsArray(v: IdsParam): (r: seq<Option<Id>>)
    ensures v.IdArray? ==> r == v.ids
    ensures v.Single? ==> r == [Some(v.id)]
    ensures v.Absent? ==> r == [None]
    ensures !v.IdArray? ==> |r| == 1
  {
    match v
    case IdArray(ids) => ids
    case Single(id) => [Some(id)]
    case Absent => [None]
  }

  /** No two doctors share both a name and a team. */
  ghost predicate NameInTeamDistinct(ds: map<Id, Doctor>) {
    forall i, j :: i in ds && j in ds && i != j ==> !(ds[i].name == ds[j].name && ds[i].team == ds[j].team)
  }

  /** The filter `{ name, team }`. */
  function NamedInTeam(name: string, team: Id): (Id, Doctor) -> bool {
    (k: Id, d: Doctor) => d.name == name && d.team == team
  }

  /**
   * `registerDoctor`: a doctor of the same name in the same team is
   * refused with 400; the schema refuses an empty name or an unknown grade
   * with 500. A new doctor has no image, no wards and no login fields.
   * Registration keeps (name, team) pairs distinct when they were.
   */
  method RegisterDoctor(db: Db, name: string, grade: string, team: Id, treatedPatients: IdsParam,
                        juniorDoctors: IdsParam)
    returns (r: Result<(Id, Doctor)>)
    requires db.Valid()
    modifies db`doctors, db`nextId
    ensures db.Valid()
    ensures Query.Any(old(db.doctors), NamedInTeam(name, team)) ==>
      r == Err(400, "Doctor with this name in the team already exists!")
    ensures !Query.Any(old(db.doctors), NamedInTeam(name, team)) && (name == "" || ParseGrade(grade).None?) ==>
      r == Err(500, ServerError)
    ensures r.Ok? <==> !Query.Any(old(db.doctors), NamedInTeam(name, team)) && name != "" && ParseGrade(grade).Some?
    ensures r.Err? ==> db.doctors == old(db.doctors)
    ensures r.Ok? ==>
      && r.value.1 == Doctor(name, ParseGrade(grade).value, team, AsArray(treatedPatients), AsArray(juniorDoctors),
                             "", [], None, None, None)
      && r.value.0 !in old(db.doctors)
      && db.doctors == old(db.doctors)[r.value.0 := r.value.1]
    ensures NameInTeamDistinct(old(db.doctors)) ==> NameInTeamDistinct(db.doctors)
  {
    var doctorExists := Query.FindOne(db.doctors, NamedInTeam(name, team));
    if doctorExists.Some? {
      return Err(400, "Doctor with this name in the team already exists!");
    }
    if name == "" || ParseGrade(grade).None? {
      return Err(500, ServerError);
    }
    var doctor := Doctor(name, ParseGrade(grade).value, team, AsArray(treatedPatients), AsArray(juniorDoctors),
                         "", [], None, None, None);
    var id := db.InsertDoctor(doctor);
    assert forall k :: k in old(db.doctors) ==> !NamedInTeam(name, team)(k, old(db.doctors)[k]);
    r := Ok((id, doctor));
  }

  /** The filter `{}`. */
  function AnyDoctor(): (Id, Doctor) -> bool {
    (k: Id, d: Doctor) => true
  }

  /** `getAllDoctors`: every doctor, or 404 when there is none. */
  method GetAllDoctors(db: Db) returns (r: Result<seq<(Id, Doctor)>>)
    ensures r.Err? <==> db.doctors == map[]
    ensures r.Err? ==> r == Err(404, "No doctors found!")
    ensures r.Ok? ==> forall p :: p in r.value <==> p.0 in db.doctors && p.1 == db.doctors[p.0]
  {
    var doctors := Query.Collect(db.doctors, AnyDoctor());
    if |doctors| == 0 {
      return Err(404, "No doctors found!");
    }
    r := Ok(doctors);
  }

  /** `getSingleDoctor`. */
  method GetSingleDoctor(db: Db, id: Id) returns (r: Result<Doctor>)
    ensures r.Ok? <==> id in db.doctors
    ensures r.Ok? ==> r.value == db.doctors[id]
    ensures r.Err? ==> r == Err(404, "Doctor not found!")
  {
    if id !in db.doctors {
      return Err(404, "Doctor not found!");
    }
    r := Ok(db.doctors[id]);
  }

  /** `deleteDoctor`: exactly that doctor is removed; references to it stay. */
  method DeleteDoctor(db: Db, id: Id) returns (r: Result<()>)
    requires db.Valid()
    modifies db`doctors
    ensures db.Valid()
    ensures r.Ok? <==> id in old(db.doctors)
    ensures r.Err? ==> r == Err(404, "Doctor not found!") && db.doctors == old(db.doctors)
    ensures r.Ok? ==> db.doctors == old(db.doctors) - {id}
  {
    if id !in db.doctors {
      return Err(404, "Doctor not found!");
    }
    db.doctors := db.doctors - {id};
    r := Ok(());
  }

  /** The schema fields an update request may set; an absent field is None. */
  datatype DoctorPatch = DoctorPatch(
    name: Option<string>,
    grade: Option<string>,
    team: Option<Id>,
    treatedPatients: Option<seq<Option<Id>>>,
    juniorDoctors: Option<seq<Option<Id>>>,
    image: Option<string>,
    wards: Option<seq<Id>>)

  /** `runValidators`: a given name must be non-empty and a given grade one of the two. */
  predicate PatchValid(p: DoctorPatch) {
    (p.name.None? || p.name.value != "") && (p.grade.None? || ParseGrade(p.grade.value).Some?)
  }

  /** `$set` of every given field; the others keep their values. */
  function ApplyPatch(d: Doctor, p: DoctorPatch): Doctor
    requires PatchValid(p)
  {
    d.(name := p.name.GetOr(d.name),
       grade := if p.grade.Some? then ParseGrade(p.grade.value).value else d.grade,
       team := p.team.GetOr(d.team),
       treatedPatients := p.treatedPatients.GetOr(d.treatedPatients),
       juniorDoctors := p.juniorDoctors.GetOr(d.juniorDoctors),
       image := p.image.GetOr(d.image),
       wards := p.wards.GetOr(d.wards))
  }

  /** An update is a `$set`: repeating it changes nothing more, and the empty update changes nothing. */
  lemma ApplyPatchIdempotent(d: Doctor, p: DoctorPatch)
    requires PatchValid(p)
    ensures ApplyPatch(ApplyPatch(d, p), p) == ApplyPatch(d, p)
    ensures ApplyPatch(d, DoctorPatch(None, None, None, None, None, None, None)) == d
    ensures ApplyPatch(d, p).email == d.email && ApplyPatch(d, p).password == d.password
  {
  }

  /**
   * Updates bypass the (name, team) check of registration: renaming a
   * doctor to the name of a colleague in the same team succeeds.
   */
  lemma UpdateCanDuplicateNameInTeam(a: Doctor, b: Doctor)
    requires a.team == b.team && a.name != b.name && b.name != ""
    ensures var p := DoctorPatch(Some(b.name), None, None, None, None, None, None);
      PatchValid(p) && ApplyPatch(a, p).name == b.name && ApplyPatch(a, p).team == b.team
      && !NameInTeamDistinct(map[0 := ApplyPatch(a, p), 1 := b])
  {
    var p := DoctorPatch(Some(b.name), None, None, None, None, None, None);
    var m := map[0 := ApplyPatch(a, p), 1 := b];
    assert m[0].name == m[1].name && m[0].team == m[1].team;
  }

  /**
   * `updateDoctor`: 404 for an unknown doctor; a patch that fails the
   * validators gives 500 and changes nothing; otherwise the patch is set.
   */
  method UpdateDoctor(db: Db, id: Id, p: DoctorPatch) returns (r: Result<Doctor>)
    requires db.Valid()
    modifies db`doctors
    ensures db.Valid()
    ensures id !in old(db.doctors) ==> r == Err(404, "Doctor not found!")
    ensures id in old(db.doctors) && !PatchValid(p) ==> r == Err(500, ServerError)
    ensures r.Ok? <==> id in old(db.doctors) && PatchValid(p)
    ensures r.Err? ==> db.doctors == old(db.doctors)
    ensures r.Ok? ==> r.value == ApplyPatch(old(db.doctors)[id], p) && db.doctors == old(db.doctors)[id := r.value]
  {
    if id !in db.doctors {
      return Err(404, "Doctor not found!");
    }
    if !PatchValid(p) {
      return Err(500, ServerError);
    }
    var updated := ApplyPatch(db.doctors[id], p);
    db.doctors := db.doctors[id := updated];
    r := Ok(updated);
  }

  /** `$addToSet`: append `x` unless it is already present. */
  function AddToSet<T(==,!new)>(s: seq<T>, x: T): (r: seq<T>)
    ensures x in r
    ensures forall y :: y in r <==> y in s || y == x
    ensures x in s ==> r == s
    ensures x !in s ==> r == s + [x]
    ensures NoDuplicates(s) ==> NoDuplicates(r)
  {
    if x in s then s else s + [x]
  }

  /** Adding the same patient a second time changes nothing. */
  lemma AddToSetIdempotent<T(!new)>(s: seq<T>, x: T)
    ensures AddToSet(AddToSet(s, x), x) == AddToSet(s, x)
  {
  }

  /**
   * `addTreatedPatient`: 404 for an unknown doctor; otherwise the patient is
   * added to that doctor's treated list (once) and nothing else changes; the
   * patient's own record is not touched.
   */
  method AddTreatedPatient(db: Db, doctorId: Id, patientId: Id) returns (r: Result<Doctor>)
    requires db.Valid()
    modifies db`doctors
    ensures db.Valid()
    ensures r.Ok? <==> doctorId in old(db.doctors)
    ensures r.Err? ==> r == Err(404, "Doctor not found!") && db.doctors == old(db.doctors)
    ensures r.Ok? ==>
      && r.value == old(db.doctors)[doctorId].(treatedPatients := AddToSet(old(db.doctors)[doctorId].treatedPatients, Some(patientId)))
      && db.doctors == old(db.doctors)[doctorId := r.value]
  {
    if doctorId !in db.doctors {
      return Err(404, "Doctor not found!");
    }
    var doctor := db.doctors[doctorId];
    doctor := doctor.(treatedPatients := AddToSet(doctor.treatedPatients, Some(patientId)));
    db.doctors := db.doctors[doctorId := doctor];
    r := Ok(doctor);
  }
}
