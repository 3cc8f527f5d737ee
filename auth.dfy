/**
 * The account controller (backend/controllers/authController.js): staff
 * accounts in the Auth collection, and a login, lookup, update and delete
 * that fall back from Auth to the doctor and patient collections. bcrypt
 * and jsonwebtoken are uninterpreted functions passed in as parameters.
 */
module Auth {
  import opened Common
  import opened Models
  import opened Store
  import Query
  import RoleAuthorization

  // ---------------------------------------------------------------- register

  /** The filter `{ email }` on the Auth collection. */
  function UserEmail(email: string): (Id, AuthUser) -> bool {
    (k: Id, u: AuthUser) => u.email == email
  }

  /**
   * The Auth schema's validators: name, email and password are required
   * (non-empty) and a given role is one of the three roles. The schema's
   * `minimum` on name is no string validator and `minLength` applies to
   * the stored hash, so neither rejects anything here.
   */
  predicate UserValid(u: AuthUser) {
    u.name != "" && u.email != "" && u.password != "" && (u.role.None? || u.role.value in {"admin", "patient", "doctor"})
  }

  /**
   * `register`: an email the Auth collection already holds is refused with
   * 400, whatever the doctor and patient collections hold; no password
   * (bcrypt throws) or a document the validators reject fails with 500;
   * otherwise exactly one account is stored, carrying `hash` of the
   * password and not the password itself.
   */
  method Register(db: Db, hash: string -> string, name: Option<string>, email: string,
                  password: Option<string>, role: Option<string>)
    returns (r: Result<(Id, AuthUser)>)
    requires db.Valid()
    modifies db`users, db`nextId
    ensures db.Valid()
    ensures Query.Any(old(db.users), UserEmail(email)) ==> r == Err(400, "User with this Email already Exists!")
    ensures r.Ok? <==>
      && !Query.Any(old(db.users), UserEmail(email))
      && password.Some? && name.Some?
      && UserValid(AuthUser(name.value, email, hash(password.value), role))
    ensures (!Query.Any(old(db.users), UserEmail(email)) && r.Err?) ==> r == Err(500, ServerError)
    ensures r.Err? ==> db.users == old(db.users)
    ensures r.Ok? ==>
      && r.value.1 == AuthUser(name.value, email, hash(password.value), role)
      && r.value.0 !in old(db.users)
      && db.users == old(db.users)[r.value.0 := r.value.1]
  {
    var existingUser := Query.FindOne(db.users, UserEmail(email));
    if existingUser.Some? {
      return Err(400, "User with this Email already Exists!");
    }
    if password.None? || name.None? {
      return Err(500, ServerError);
    }
    var newUser := AuthUser(name.value, email, hash(password.value), role);
    if !UserValid(newUser) {
      return Err(500, ServerError);
    }
    var id := db.InsertUser(newUser);
    r := Ok((id, newUser));
  }

  // ---------------------------------------------------------------- login

  /** Which collection the login found the email in (the source's `roleType`). */
  datatype RoleType = UserType | DoctorType | PatientType

  /** The role a session carries: fixed for doctors and patients, stored for Auth users. */
  function ResolvedRole(t: RoleType, stored: Option<string>): (r: Option<string>)
    ensures t == DoctorType ==> r == Some("doctor")
    ensures t == PatientType ==> r == Some("patient")
    ensures t == UserType ==> r == stored
  {
    match t
    case DoctorType => Some("doctor")
    case PatientType => Some("patient")
    case UserType => stored
  }

  /** The `user` object of the login response; `specialty` is only ever set for doctors. */
  datatype SessionUser = SessionUser(
    id: Id,
    name: Option<string>,
    email: Option<string>,
    role: Option<string>,
    specialty: Option<string>)

  /** A successful login: the signed token and the response's user. */
  datatype Session = Session(token: string, user: SessionUser)

  /** The response user for an Auth account. */
  function UserSession(k: Id, u: AuthUser): SessionUser {
    SessionUser(k, Some(u.name), Some(u.email), ResolvedRole(UserType, u.role), None)
  }

  /** The response user for a doctor, with its specialty. */
  function DoctorSession(k: Id, d: Doctor): SessionUser {
    SessionUser(k, Some(d.name), d.email, ResolvedRole(DoctorType, None), d.specialty)
  }

  /** The response user for a patient: the patient schema has no `name`. */
  function PatientSession(k: Id, p: Patient): SessionUser {
    SessionUser(k, None, p.email, ResolvedRole(PatientType, None), None)
  }

  /** The filter `{ email }` on the doctor collection. */
  function DoctorEmail(email: string): (Id, Doctor) -> bool {
    (k: Id, d: Doctor) => d.email == Some(email)
  }

  /** The filter `{ email }` on the patient collection. */
  function PatientEmail(email: string): (Id, Patient) -> bool {
    (k: Id, p: Patient) => p.email == Some(email)
  }

  const BadLogin: string := "Invalid Email or Password"

  /**
   * `login`: the email is looked up in Auth, then among the doctors, then
   * among the patients, and the first collection that holds it decides. An
   * unknown email and a wrong password give the same 400. The token signs
   * the id, email and resolved role that the response user carries.
   */
  method Login(db: Db, compare: (string, string) -> bool,
               sign: (Id, Option<string>, Option<string>) -> string, email: string, password: string)
    returns (r: Result<Session>)
    requires db.Valid()
    ensures r.Ok? ==> r.value.token == sign(r.value.user.id, r.value.user.email, r.value.user.role)
    // found in Auth: that account alone decides
    ensures forall k :: k in db.users && db.users[k].email == email ==>
      && (r.Ok? <==> compare(password, db.users[k].password))
      && (r.Ok? ==> r.value.user == UserSession(k, db.users[k]))
      && (r.Err? ==> r == Err(400, BadLogin))
    // not in Auth but among the doctors: some doctor with that email decides
    ensures !Query.Any(db.users, UserEmail(email)) && Query.Any(db.doctors, DoctorEmail(email)) ==>
      && (r.Ok? ==> exists k :: k in db.doctors && db.doctors[k].email == Some(email)
                               && db.doctors[k].password.Some? && compare(password, db.doctors[k].password.value)
                               && r.value.user == DoctorSession(k, db.doctors[k]))
      && (r.Err? ==> r == Err(400, BadLogin) || r == Err(500, ServerError))
    // only among the patients: that patient alone decides
    ensures !Query.Any(db.users, UserEmail(email)) && !Query.Any(db.doctors, DoctorEmail(email)) ==>
      && (forall k :: k in db.patients && db.patients[k].email == Some(email) ==>
            && (r.Ok? <==> compare(password, db.patients[k].password))
            && (r.Ok? ==> r.value.user == PatientSession(k, db.patients[k])))
      && (r.Err? ==> r == Err(400, BadLogin))
    ensures (!Query.Any(db.users, UserEmail(email)) && !Query.Any(db.doctors, DoctorEmail(email))
             && !Query.Any(db.patients, PatientEmail(email))) ==> r == Err(400, BadLogin)
  {
    var user: SessionUser;
    var stored: Option<string>;
    var fromAuth := Query.FindOne(db.users, UserEmail(email));
    if fromAuth.Some? {
      user := UserSession(fromAuth.value, db.users[fromAuth.value]);
      stored := Some(db.users[fromAuth.value].password);
    } else {
      var fromDoctors := Query.FindOne(db.doctors, DoctorEmail(email));
      if fromDoctors.Some? {
        user := DoctorSession(fromDoctors.value, db.doctors[fromDoctors.value]);
        stored := db.doctors[fromDoctors.value].password;
        if stored.None? {
          // bcrypt.compare throws on a missing hash
          return Err(500, ServerError);
        }
      } else {
        var fromPatients := Query.FindOne(db.patients, PatientEmail(email));
        if fromPatients.None? {
          return Err(400, BadLogin);
        }
        user := PatientSession(fromPatients.value, db.patients[fromPatients.value]);
        stored := Some(db.patients[fromPatients.value].password);
      }
    }
    if !compare(password, stored.value) {
      return Err(400, BadLogin);
    }
    r := Ok(Session(sign(user.id, user.email, user.role), user));
  }

  /**
   * A doctor or a patient who logs in always passes a route guarded for
   * their own role; an Auth account registered without a role passes no
   * route guard at all.
   */
  lemma SessionRoleAuthorizes(s: SessionUser, allowed: seq<string>)
    ensures s.role == Some("doctor") && "doctor" in allowed ==>
      RoleAuthorization.Authorize(allowed, Some(s.role)) == RoleAuthorization.Next
    ensures s.role == Some("patient") && "patient" in allowed ==>
      RoleAuthorization.Authorize(allowed, Some(s.role)) == RoleAuthorization.Next
    ensures s.role.None? ==>
      RoleAuthorization.Authorize(allowed, Some(s.role)) == RoleAuthorization.Forbidden(403, RoleAuthorization.NoRole)
  {
  }

  // ---------------------------------------------------------------- lookup, delete, update

  /** A document found by id in one of the three collections. */
  datatype Account = AuthAccount(user: AuthUser) | PatientAccount(patient: Patient) | DoctorAccount(doctor: Doctor)

  /** `select("-password")`: the document without its password (cleared here). */
  function WithoutPassword(a: Account): (r: Account)
    ensures r.AuthAccount? <==> a.AuthAccount?
    ensures r.PatientAccount? <==> a.PatientAccount?
    ensures r.AuthAccount? ==> r.user.password == "" && r.user.email == a.user.email
    ensures r.PatientAccount? ==> r.patient.password == "" && r.patient.contact == a.patient.contact
    ensures r.DoctorAccount? ==> r.doctor.password.None? && r.doctor.name == a.doctor.name
  {
    match a
    case AuthAccount(u) => AuthAccount(u.(password := ""))
    case PatientAccount(p) => PatientAccount(p.(password := ""))
    case DoctorAccount(d) => DoctorAccount(d.(password := None))
  }

  /** The first collection holding `id`, in the order Auth, patients, doctors. */
  function FindAccount(users: map<Id, AuthUser>, patients: map<Id, Patient>, doctors: map<Id, Doctor>, id: Id)
    : (r: Option<Account>)
    ensures r.None? <==> id !in users && id !in patients && id !in doctors
    ensures id in users ==> r == Some(AuthAccount(users[id]))
    ensures id !in users && id in patients ==> r == Some(PatientAccount(patients[id]))
    ensures id !in users && id !in patients && id in doctors ==> r == Some(DoctorAccount(doctors[id]))
  {
    if id in users then Some(AuthAccount(users[id]))
    else if id in patients then Some(PatientAccount(patients[id]))
    else if id in doctors then Some(DoctorAccount(doctors[id]))
    else None
  }

  /** `getSingleUser`: Auth, then patients, then doctors; the password is left out. */
  method GetSingleUser(db: Db, id: Option<Id>) returns (r: Result<Account>)
    ensures id.None? ==> r == Err(400, "User ID is required to find the user.")
    ensures id.Some? ==> (r.Ok? <==> FindAccount(db.users, db.patients, db.doctors, id.value).Some?)
    ensures id.Some? && r.Err? ==> r == Err(404, "No User Found!")
    ensures r.Ok? ==> r.value == WithoutPassword(FindAccount(db.users, db.patients, db.doctors, id.value).value)
  {
    if id.None? {
      return Err(400, "User ID is required to find the user.");
    }
    var user: Option<Account> := None;
    if id.value in db.users {
      user := Some(AuthAccount(db.users[id.value]));
    }
    if user.None? && id.value in db.patients {
      user := Some(PatientAccount(db.patients[id.value]));
    }
    if user.None? && id.value in db.doctors {
      user := Some(DoctorAccount(db.doctors[id.value]));
    }
    if user.None? {
      return Err(404, "No User Found!");
    }
    r := Ok(WithoutPassword(user.value));
  }

  /**
   * `deleteUser`: the document is removed from the first collection that
   * holds the id, in the order Auth, patients, doctors; at most one
   * document is removed.
   */
  method DeleteUser(db: Db, id: Option<Id>) returns (r: Result<()>)
    requires db.Valid()
    modifies db`users, db`patients, db`doctors
    ensures db.Valid()
    ensures id.None? ==> r == Err(400, "User ID is required to delete the user.")
    ensures id.Some? ==> (r.Ok? <==> FindAccount(old(db.users), old(db.patients), old(db.doctors), id.value).Some?)
    ensures id.Some? && r.Err? ==> r == Err(404, "User not found!")
    ensures r.Err? ==> unchanged(db)
    ensures r.Ok? && id.value in old(db.users) ==>
      db.users == old(db.users) - {id.value} && db.patients == old(db.patients) && db.doctors == old(db.doctors)
    ensures r.Ok? && id.value !in old(db.users) && id.value in old(db.patients) ==>
      db.users == old(db.users) && db.patients == old(db.patients) - {id.value} && db.doctors == old(db.doctors)
    ensures r.Ok? && id.value !in old(db.users) && id.value !in old(db.patients) ==>
      db.users == old(db.users) && db.patients == old(db.patients) && db.doctors == old(db.doctors) - {id.value}
  {
    if id.None? {
      return Err(400, "User ID is required to delete the user.");
    }
    var k := id.value;
    if k in db.users {
      RemovedUserKeepsIndex(db.users, k);
      db.users := db.users - {k};
    } else if k in db.patients {
      RemovedPatientKeepsIndexes(db.patients, k);
      db.patients := db.patients - {k};
    } else if k in db.doctors {
      db.doctors := db.doctors - {k};
    } else {
      return Err(404, "User not found!");
    }
    r := Ok(());
  }

  /** Removing an account keeps the unique index on `Auth.email`. */
  lemma RemovedUserKeepsIndex(us: map<Id, AuthUser>, k: Id)
    requires EmailsDistinct(us)
    ensures EmailsDistinct(us - {k})
  {
  }

  /** Removing a patient keeps the unique indexes on contact and email. */
  lemma RemovedPatientKeepsIndexes(ps: map<Id, Patient>, k: Id)
    requires ContactsDistinct(ps) && PatientEmailsDistinct(ps)
    ensures ContactsDistinct(ps - {k}) && PatientEmailsDistinct(ps - {k})
  {
  }

  /**
   * The update `{ name, email, role }` applied to each kind of document:
   * undefined keys are dropped, and so are keys the document's schema does
   * not declare (a patient has no `name`; a doctor's schema declares
   * neither `email` nor `role`). No validator runs.
   */
  function Updated(a: Account, name: Option<string>, email: Option<string>, role: Option<string>): (r: Account)
    ensures r.AuthAccount? <==> a.AuthAccount?
    ensures r.PatientAccount? <==> a.PatientAccount?
    ensures r.AuthAccount? ==> r.user.password == a.user.password
    ensures r.PatientAccount? ==>
      r.patient.(email := a.patient.email, role := a.patient.role) == a.patient
    ensures r.DoctorAccount? ==> r.doctor.(name := a.doctor.name) == a.doctor
  {
    match a
    case AuthAccount(u) =>
      AuthAccount(AuthUser(name.GetOr(u.name), email.GetOr(u.email), u.password, if role.Some? then role else u.role))
    case PatientAccount(p) =>
      PatientAccount(p.(email := if email.Some? then email else p.email, role := role.GetOr(p.role)))
    case DoctorAccount(d) =>
      DoctorAccount(d.(name := name.GetOr(d.name)))
  }

  /** The unique index on `Auth.email` refuses `email` for account `id`. */
  function OtherUserEmail(id: Id, email: string): (Id, AuthUser) -> bool {
    (k: Id, u: AuthUser) => k != id && u.email == email
  }

  /** The unique index on `Patient.email` refuses `email` for patient `id`. */
  function OtherPatientEmail(id: Id, email: string): (Id, Patient) -> bool {
    (k: Id, p: Patient) => k != id && p.email == Some(email)
  }

  /** `Auth.findByIdAndUpdate` on a stored account; the unique index on `email` may refuse it. */
  method UpdateAuthUser(db: Db, k: Id, name: Option<string>, email: Option<string>, role: Option<string>)
    returns (r: Result<Account>)
    requires db.Valid() && k in db.users
    modifies db`users
    ensures db.Valid()
    ensures r.Err? <==> email.Some? && Query.Any(old(db.users), OtherUserEmail(k, email.value))
    ensures r.Err? ==> r == Err(500, ServerError) && db.users == old(db.users)
    ensures r.Ok? ==>
      && r.value == WithoutPassword(Updated(AuthAccount(old(db.users)[k]), name, email, role))
      && db.users == old(db.users)[k := Updated(AuthAccount(old(db.users)[k]), name, email, role).user]
  {
    if email.Some? {
      var clash := Query.FindOne(db.users, OtherUserEmail(k, email.value));
      if clash.Some? {
        return Err(500, ServerError);
      }
    }
    var updated := Updated(AuthAccount(db.users[k]), name, email, role);
    db.users := db.users[k := updated.user];
    r := Ok(WithoutPassword(updated));
  }

  /** Replacing one patient by one with the same contact and a free email keeps both unique indexes. */
  lemma ReplacedPatientKeepsIndexes(ps: map<Id, Patient>, k: Id, p: Patient)
    requires k in ps && ContactsDistinct(ps) && PatientEmailsDistinct(ps)
    requires p.contact == ps[k].contact
    requires p.email == ps[k].email || (p.email.Some? && !Query.Any(ps, OtherPatientEmail(k, p.email.value)))
    ensures ContactsDistinct(ps[k := p]) && PatientEmailsDistinct(ps[k := p])
  {
    var qs := ps[k := p];
    forall i, j | i in qs && j in qs && i != j
      ensures qs[i].email != qs[j].email
    {
      if i == k && p.email != ps[k].email {
        assert !OtherPatientEmail(k, p.email.value)(j, ps[j]);
      } else if j == k && p.email != ps[k].email {
        assert !OtherPatientEmail(k, p.email.value)(i, ps[i]);
      }
    }
  }

  /** `Patient.findByIdAndUpdate` on a stored patient; the unique index on `email` may refuse it. */
  method UpdatePatientUser(db: Db, k: Id, name: Option<string>, email: Option<string>, role: Option<string>)
    returns (r: Result<Account>)
    requires db.Valid() && k in db.patients
    modifies db`patients
    ensures db.Valid()
    ensures r.Err? <==> email.Some? && Query.Any(old(db.patients), OtherPatientEmail(k, email.value))
    ensures r.Err? ==> r == Err(500, ServerError) && db.patients == old(db.patients)
    ensures r.Ok? ==>
      && r.value == WithoutPassword(Updated(PatientAccount(old(db.patients)[k]), name, email, role))
      && db.patients == old(db.patients)[k := Updated(PatientAccount(old(db.patients)[k]), name, email, role).patient]
  {
    if email.Some? {
      var clash := Query.FindOne(db.patients, OtherPatientEmail(k, email.value));
      if clash.Some? {
        return Err(500, ServerError);
      }
    }
    var updated := Updated(PatientAccount(db.patients[k]), name, email, role);
    ReplacedPatientKeepsIndexes(db.patients, k, updated.patient);
    db.patients := db.patients[k := updated.patient];
    r := Ok(WithoutPassword(updated));
  }

  /**
   * `Doctor.findByIdAndUpdate` on a stored doctor: only `name` is a declared
   * path there, and the doctor schema has no unique index it could break.
   */
  method UpdateDoctorUser(db: Db, k: Id, name: Option<string>, email: Option<string>, role: Option<string>)
    returns (r: Result<Account>)
    requires db.Valid() && k in db.doctors
    modifies db`doctors
    ensures db.Valid()
    ensures r == Ok(WithoutPassword(Updated(DoctorAccount(old(db.doctors)[k]), name, email, role)))
    ensures db.doctors == old(db.doctors)[k := Updated(DoctorAccount(old(db.doctors)[k]), name, email, role).doctor]
  {
    var updated := Updated(DoctorAccount(db.doctors[k]), name, email, role);
    db.doctors := db.doctors[k := updated.doctor];
    r := Ok(WithoutPassword(updated));
  }

  /**
   * The unique index of the collection first holding `k` (Auth, then
   * patients) refuses `email`; doctors declare no `email`, so no index
   * applies there.
   */
  ghost predicate EmailTaken(users: map<Id, AuthUser>, patients: map<Id, Patient>, k: Id, email: string) {
    if k in users then Query.Any(users, OtherUserEmail(k, email))
    else k in patients && Query.Any(patients, OtherPatientEmail(k, email))
  }

  /**
   * `updateUser`: a payload with no truthy name, email or role is refused
   * with 400; the update goes to the first collection holding the id, in
   * the order Auth, patients, doctors, where an email another document of
   * that collection holds fails with 500 and changes nothing; an id found
   * nowhere gives 404.
   */
  method UpdateUser(db: Db, id: Option<Id>, name: Option<string>, email: Option<string>, role: Option<string>)
    returns (r: Result<Account>)
    requires db.Valid()
    modifies db`users, db`patients, db`doctors
    ensures db.Valid()
    ensures id.None? ==> r == Err(400, "User ID is required to update the user.")
    ensures id.Some? && !Truthy(name) && !Truthy(email) && !Truthy(role) ==>
      r == Err(400, "At least one field (name, email, or role) is required for update.")
    ensures (id.Some? && (Truthy(name) || Truthy(email) || Truthy(role))
             && FindAccount(old(db.users), old(db.patients), old(db.doctors), id.value).None?) ==>
      r == Err(404, "User not found.")
    ensures (id.Some? && (Truthy(name) || Truthy(email) || Truthy(role))
             && FindAccount(old(db.users), old(db.patients), old(db.doctors), id.value).Some?) ==>
      && (r.Err? <==> email.Some? && EmailTaken(old(db.users), old(db.patients), id.value, email.value))
      && (r.Err? ==> r == Err(500, ServerError))
    ensures r.Err? ==> db.users == old(db.users) && db.patients == old(db.patients) && db.doctors == old(db.doctors)
    ensures r.Ok? ==>
      && (Truthy(name) || Truthy(email) || Truthy(role))
      && FindAccount(old(db.users), old(db.patients), old(db.doctors), id.value).Some?
      && r.value == WithoutPassword(Updated(FindAccount(old(db.users), old(db.patients), old(db.doctors), id.value).value,
                                            name, email, role))
    ensures r.Ok? && id.value in old(db.users) ==>
      && db.users == old(db.users)[id.value := Updated(AuthAccount(old(db.users)[id.value]), name, email, role).user]
      && db.patients == old(db.patients) && db.doctors == old(db.doctors)
    ensures r.Ok? && id.value !in old(db.users) ==> db.users == old(db.users)
    ensures r.Ok? && id.value !in old(db.users) && id.value in old(db.patients) ==>
      && db.patients == old(db.patients)[id.value := Updated(PatientAccount(old(db.patients)[id.value]), name, email, role).patient]
      && db.doctors == old(db.doctors)
    ensures r.Ok? && id.value !in old(db.users) && id.value !in old(db.patients) ==>
      && id.value in old(db.doctors)
      && db.patients == old(db.patients)
      && db.doctors == old(db.doctors)[id.value := Updated(DoctorAccount(old(db.doctors)[id.value]), name, email, role).doctor]
  {
    if id.None? {
      return Err(400, "User ID is required to update the user.");
    }
    if !Truthy(name) && !Truthy(email) && !Truthy(role) {
      return Err(400, "At least one field (name, email, or role) is required for update.");
    }
    var k := id.value;
    if k in db.users {
      r := UpdateAuthUser(db, k, name, email, role);
    } else if k in db.patients {
      r := UpdatePatientUser(db, k, name, email, role);
    } else if k in db.doctors {
      r := UpdateDoctorUser(db, k, name, email, role);
    } else {
      r := Err(404, "User not found.");
    }
  }
}
