/**
 * The team controller (backend/controllers/teamController.js): a registry
 * keyed by (name, department), with get, update and delete by id.
 */
module Teams {
  import opened Common
  import opened Models
  import opened Store
  import Query

  /** No two teams share both a name and a department. */
  ghost predicate NameInDepartmentDistinct(ts: map<Id, Team>) {
    forall i, j :: i in ts && j in ts && i != j ==>
      !(ts[i].name == ts[j].name && ts[i].department == ts[j].department)
  }

  /** The filter `{ name, department }`. */
  function NamedIn(name: string, department: string): (Id, Team) -> bool {
    (k: Id, t: Team) => t.name == name && t.department == department
  }

  /**
   * `registerTeam`: a team of the same name in the same department is
   * refused with 400; the schema refuses an empty name or department with
   * 500; an absent list of junior doctors is stored empty. Registration
   * keeps (name, department) pairs distinct when they were.
   */
  method RegisterTeam(db: Db, name: string, department: string, consultant: Option<Id>,
                      juniorDoctors: Option<seq<Id>>)
    returns (r: Result<(Id, Team)>)
    requires db.Valid()
    modifies db`teams, db`nextId
    ensures db.Valid()
    ensures Query.Any(old(db.teams), NamedIn(name, department)) ==>
      r == Err(400, "Team with this name in the department already exists!")
    ensures !Query.Any(old(db.teams), NamedIn(name, department)) && (name == "" || department == "") ==>
      r == Err(500, ServerError)
    ensures r.Ok? <==> !Query.Any(old(db.teams), NamedIn(name, department)) && name != "" && department != ""
    ensures r.Err? ==> db.teams == old(db.teams)
    ensures r.Ok? ==>
      && r.value.1 == Team(name, department, consultant, juniorDoctors.GetOr([]))
      && r.value.0 !in old(db.teams)
      && db.teams == old(db.teams)[r.value.0 := r.value.1]
    ensures NameInDepartmentDistinct(old(db.teams)) ==> NameInDepartmentDistinct(db.teams)
  {
    var teamExists := Query.FindOne(db.teams, NamedIn(name, department));
    if teamExists.Some? {
      return Err(400, "Team with this name in the department already exists!");
    }
    if name == "" || department == "" {
      return Err(500, ServerError);
    }
    var team := Team(name, department, consultant, juniorDoctors.GetOr([]));
    var id := db.InsertTeam(team);
    assert forall k :: k in old(db.teams) ==> !NamedIn(name, department)(k, old(db.teams)[k]);
    r := Ok((id, team));
  }

  /** The filter `{}`. */
  function AnyTeam(): (Id, Team) -> bool {
    (k: Id, t: Team) => true
  }

  /** `getAllTeams`: every team, or 404 when there is none. */
  method GetAllTeams(db: Db) returns (r: Result<seq<(Id, Team)>>)
    ensures r.Err? <==> db.teams == map[]
    ensures r.Err? ==> r == Err(404, "No teams found!")
    ensures r.Ok? ==> forall p :: p in r.value <==> p.0 in db.teams && p.1 == db.teams[p.0]
  {
    var teams := Query.Collect(db.teams, AnyTeam());
    if |teams| == 0 {
      return Err(404, "No teams found!");
    }
    r := Ok(teams);
  }

  /** `getSingleTeam`. */
  method GetSingleTeam(db: Db, id: Id) returns (r: Result<Team>)
    ensures r.Ok? <==> id in db.teams
    ensures r.Ok? ==> r.value == db.teams[id]
    ensures r.Err? ==> r == Err(404, "Team not found!")
  {
    if id !in db.teams {
      return Err(404, "Team not found!");
    }
    r := Ok(db.teams[id]);
  }

  /** `deleteTeam`: exactly that team is removed; its doctors keep their reference. */
  method DeleteTeam(db: Db, id: Id) returns (r: Result<()>)
    requires db.Valid()
    modifies db`teams
    ensures db.Valid()
    ensures r.Ok? <==> id in old(db.teams)
    ensures r.Err? ==> r == Err(404, "Team not found!") && db.teams == old(db.teams)
    ensures r.Ok? ==> db.teams == old(db.teams) - {id}
  {
    if id !in db.teams {
      return Err(404, "Team not found!");
    }
    db.teams := db.teams - {id};
    r := Ok(());
  }

  /** The schema fields an update request may set; an absent field is None. */
  datatype TeamPatch = TeamPatch(
    name: Option<string>,
    department: Option<string>,
    consultant: Option<Id>,
    juniorDoctors: Option<seq<Id>>)

  /** `runValidators`: a given name or department must be non-empty. */
  predicate PatchValid(p: TeamPatch) {
    (p.name.None? || p.name.value != "") && (p.department.None? || p.department.value != "")
  }

  /** `$set` of every given field. */
  function ApplyPatch(t: Team, p: TeamPatch): Team {
    Team(p.name.GetOr(t.name), p.department.GetOr(t.department),
         if p.consultant.Some? then p.consultant else t.consultant,
         p.juniorDoctors.GetOr(t.juniorDoctors))
  }

  /** Repeating an update changes nothing more, and the empty update changes nothing. */
  lemma ApplyPatchIdempotent(t: Team, p: TeamPatch)
    ensures ApplyPatch(ApplyPatch(t, p), p) == ApplyPatch(t, p)
    ensures ApplyPatch(t, TeamPatch(None, None, None, None)) == t
  {
  }

  /**
   * `updateTeam`: 404 for an unknown team; a patch that fails the
   * validators gives 500 and changes nothing; otherwise the patch is set,
   * with no check of the (name, department) pair.
   */
  method UpdateTeam(db: Db, id: Id, p: TeamPatch) returns (r: Result<Team>)
    requires db.Valid()
    modifies db`teams
    ensures db.Valid()
    ensures id !in old(db.teams) ==> r == Err(404, "Team not found!")
    ensures id in old(db.teams) && !PatchValid(p) ==> r == Err(500, ServerError)
    ensures r.Ok? <==> id in old(db.teams) && PatchValid(p)
    ensures r.Err? ==> db.teams == old(db.teams)
    ensures r.Ok? ==> r.value == ApplyPatch(old(db.teams)[id], p) && db.teams == old(db.teams)[id := r.value]
  {
    if id !in db.teams {
      return Err(404, "Team not found!");
    }
    if !PatchValid(p) {
      return Err(500, ServerError);
    }
    var updated := ApplyPatch(db.teams[id], p);
    db.teams := db.teams[id := updated];
    r := Ok(updated);
  }
}
