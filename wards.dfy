/**
 * The ward controller (backend/controllers/wardController.js): wards are
 * added under a unique name, listed, fetched and deleted by id. Nothing
 * here admits a patient to a ward or counts its beds.
 */
module Wards {
  import opened Common
  import opened Models
  import opened Store
  import Query

  /** The request's `wardType`, if it is one of the schema's four values. */
  function ParseWardType(s: string): (r: Option<WardType>)
    ensures r.Some? <==> s in {"Male", "Female", "Kids", "Other"}
  {
    if s == "Male" then Some(Male)
    else if s == "Female" then Some(Female)
    else if s == "Kids" then Some(Kids)
    else if s == "Other" then Some(Other)
    else None
  }

  /** The filter `{ wardName }`. */
  function Named(wardName: string): (Id, Ward) -> bool {
    (k: Id, w: Ward) => w.wardName == wardName
  }

  /**
   * `addWard`: a taken name is refused with 500 "Ward with this name
   * already exists!"; a document the validators reject (an empty name, an
   * unknown type, no capacity or one below 1) fails with 500 "Server
   * Error"; otherwise exactly one ward is stored, with `occupiedBeds`
   * defaulting to 0 and `patients` to the empty list, and ward names stay
   * distinct.
   */
  method AddWard(db: Db, wardName: string, wardType: string, capacity: Option<int>,
                 occupiedBeds: Option<int>, patients: Option<seq<Id>>)
    returns (r: Result<(Id, Ward)>)
    requires db.Valid()
    modifies db`wards, db`nextId
    ensures db.Valid()
    ensures Query.Any(old(db.wards), Named(wardName)) ==> r == Err(500, "Ward with this name already exists!")
    ensures r.Ok? <==>
      && !Query.Any(old(db.wards), Named(wardName))
      && wardName != "" && ParseWardType(wardType).Some? && capacity.Some? && capacity.value >= 1
    ensures (!Query.Any(old(db.wards), Named(wardName)) && r.Err?) ==> r == Err(500, ServerError)
    ensures r.Err? ==> db.wards == old(db.wards)
    ensures r.Ok? ==>
      && r.value.1.wardName == wardName
      && TypeName(r.value.1.wardType) == wardType
      && r.value.1.capacity == capacity.value
      && r.value.1.occupiedBeds == occupiedBeds.GetOr(0)
      && r.value.1.patients == patients.GetOr([])
      && r.value.0 !in old(db.wards)
      && db.wards == old(db.wards)[r.value.0 := r.value.1]
  {
    var existingWard := Query.FindOne(db.wards, Named(wardName));
    if existingWard.Some? {
      return Err(500, "Ward with this name already exists!");
    }
    var kind := ParseWardType(wardType);
    if wardName == "" || kind.None? || capacity.None? || capacity.value < 1 {
      return Err(500, ServerError);
    }
    var ward := Ward(wardName, kind.value, capacity.value, occupiedBeds.GetOr(0), patients.GetOr([]));
    var id := db.InsertWard(ward);
    r := Ok((id, ward));
  }

  /** The stored spelling of a ward type. */
  function TypeName(t: WardType): (s: string)
    ensures ParseWardType(s) == Some(t)
  {
    match t
    case Male => "Male"
    case Female => "Female"
    case Kids => "Kids"
    case Other => "Other"
  }

  /** The filter `{}`. */
  function AnyWard(): (Id, Ward) -> bool {
    (k: Id, w: Ward) => true
  }

  /** `getAllWards`: every ward, or 404 "No Ward found!" when there is none. */
  method GetAllWards(db: Db) returns (r: Result<seq<(Id, Ward)>>)
    ensures r.Err? <==> db.wards == map[]
    ensures r.Err? ==> r == Err(404, "No Ward found!")
    ensures r.Ok? ==> multiset(r.value) == multiset(Query.Selected(db.wards, AnyWard()))
    ensures r.Ok? ==> forall p :: p in r.value <==> p.0 in db.wards && p.1 == db.wards[p.0]
  {
    var wards := Query.Collect(db.wards, AnyWard());
    if |wards| == 0 {
      return Err(404, "No Ward found!");
    }
    r := Ok(wards);
  }

  /** `getSingleWard`. */
  method GetSingleWard(db: Db, id: Id) returns (r: Result<Ward>)
    ensures r.Ok? <==> id in db.wards
    ensures r.Ok? ==> r.value == db.wards[id]
    ensures r.Err? ==> r == Err(404, "Wards not found!")
  {
    if id !in db.wards {
      return Err(404, "Wards not found!");
    }
    r := Ok(db.wards[id]);
  }

  /**
   * `deleteWard`: exactly that ward is removed; patients and doctors that
   * refer to it keep their references.
   */
  method DeleteWard(db: Db, id: Id) returns (r: Result<()>)
    requires db.Valid()
    modifies db`wards
    ensures db.Valid()
    ensures r.Ok? <==> id in old(db.wards)
    ensures r.Err? ==> r == Err(404, "Ward not found!") && db.wards == old(db.wards)
    ensures r.Ok? ==> db.wards == old(db.wards) - {id}
  {
    if id !in db.wards {
      return Err(404, "Ward not found!");
    }
    db.wards := db.wards - {id};
    r := Ok(());
  }
}
