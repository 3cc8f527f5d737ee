/**
 * The appointment controller (backend/controllers/appointmentController.js):
 * role-filtered listings, booking with a doctor/time conflict check,
 * status updates with the reschedule conflict check, and deletion.
 */
module Appointments {
  import opened Common
  import opened Models
  import opened Store
  import Query
  import Sorting

  // ---------------------------------------------------------------- Listing

  /** The `message` of the appointment controller's catch-all 500 response. */
  const ServerFailure: string := "Server error"

  /** `userId && role` with a role that selects a filter: the user id is cast. */
  predicate FiltersByUser(userId: Param<Id>, role: Option<string>) {
    !userId.Missing? && (role == Some("doctor") || role == Some("patient"))
  }

  /**
   * The filter built from the `userId` and `role` query parameters: the
   * doctor's appointments for role "doctor", the patient's for role
   * "patient", and every appointment otherwise (also when either is absent).
   */
  function ListingFilter(userId: Param<Id>, role: Option<string>): (Id, Appointment) -> bool {
    if userId.Given? && role == Some("doctor") then
      (k: Id, a: Appointment) => a.doctor == userId.value
    else if userId.Given? && role == Some("patient") then
      (k: Id, a: Appointment) => a.patient == userId.value
    else
      (k: Id, a: Appointment) => true
  }

  /** The sort key `appointmentDateTime`. */
  function ApptTime(p: (Id, Appointment)): real {
    p.1.appointmentDateTime as real
  }

  /**
   * `getAppointments` and `fetchAppointmentsForAI`: the appointments the
   * filter selects, earliest first. A user id that is not an ObjectId fails
   * its cast, but only when the role makes it part of the filter.
   */
  method GetAppointments(db: Db, userId: Param<Id>, role: Option<string>)
    returns (r: Result<seq<(Id, Appointment)>>)
    ensures r.Err? <==> userId.Malformed? && FiltersByUser(userId, role)
    ensures r.Err? ==> r == Err(500, ServerFailure)
    ensures r.Ok? ==>
      && multiset(r.value) == multiset(Query.Selected(db.appointments, ListingFilter(userId, role)))
      && Sorting.SortedBy(r.value, ApptTime, false)
    ensures userId.Given? && role == Some("doctor") ==>
      r.Ok? && forall p :: p in r.value <==> p.0 in db.appointments && p.1 == db.appointments[p.0] && p.1.doctor == userId.value
    ensures userId.Given? && role == Some("patient") ==>
      r.Ok? && forall p :: p in r.value <==> p.0 in db.appointments && p.1 == db.appointments[p.0] && p.1.patient == userId.value
    ensures !FiltersByUser(userId, role) ==>
      r.Ok? && forall p :: p in r.value <==> p.0 in db.appointments && p.1 == db.appointments[p.0]
  {
    if userId.Malformed? && FiltersByUser(userId, role) {
      return Err(500, ServerFailure);
    }
    var found := Query.Collect(db.appointments, ListingFilter(userId, role));
    var sorted := Sorting.Sort(found, ApptTime, false);
    forall p ensures p in sorted <==> p in found {
      assert p in sorted <==> p in multiset(sorted);
    }
    r := Ok(sorted);
  }

  /** `getSingleAppointment`. */
  method GetSingleAppointment(db: Db, id: Id) returns (r: Result<Appointment>)
    ensures id in db.appointments <==> r.Ok?
    ensures r.Ok? ==> r.value == db.appointments[id]
    ensures r.Err? ==> r == Err(404, "Appointment not found")
  {
    if id !in db.appointments {
      return Err(404, "Appointment not found");
    }
    r := Ok(db.appointments[id]);
  }

  // ---------------------------------------------------------------- Booking

  /**
   * Some appointment other than `except` holds the doctor's slot at `at`;
   * only pending and approved appointments hold a slot.
   */
  ghost predicate SlotTaken(appts: map<Id, Appointment>, doctor: Id, at: Time, except: Option<Id>) {
    exists k :: k in appts && Some(k) != except && Blocks(appts[k], doctor, at)
  }

  /** The filter `{ doctor, appointmentDateTime: at, status: { $in: [pending, approved] } }`, optionally with `_id: { $ne: except }`. */
  function Conflicts(doctor: Id, at: Time, except: Option<Id>): (Id, Appointment) -> bool {
    (k: Id, a: Appointment) => Some(k) != except && Blocks(a, doctor, at)
  }

  /** Runs the conflict query; the answer is exactly `SlotTaken`. */
  method FindConflict(appts: map<Id, Appointment>, doctor: Id, at: Time, except: Option<Id>) returns (taken: bool)
    ensures taken <==> SlotTaken(appts, doctor, at, except)
  {
    var found := Query.FindOne(appts, Conflicts(doctor, at, except));
    taken := found.Some?;
  }

  /** The appointment time: the requested one when it parses, else the current time. */
  function BookedTime(requested: Option<Time>, now: Time): Time {
    requested.GetOr(now)
  }

  /**
   * The text of the booking notification; `shown` stands for the
   * server-locale `toLocaleString` of the appointment time.
   */
  function BookedMessage(doctorName: string, shown: string): string {
    "Your appointment with Dr. " + doctorName + " is booked for " + shown + "."
  }

  /**
   * `createAppointment`: the doctor is looked up before the patient, then
   * the slot is checked; on success one pending appointment and one
   * notification to its patient are stored.
   */
  method CreateAppointment(db: Db, patient: Id, doctor: Id, requested: Option<Time>, notes: Option<string>,
                           now: Time, localeString: Time -> string)
    returns (r: Result<(Id, Appointment)>)
    requires db.Valid()
    modifies db`appointments, db`notifications, db`nextId
    ensures db.Valid()
    ensures doctor !in db.doctors ==> r == Err(404, "Doctor not found!")
    ensures doctor in db.doctors && patient !in db.patients ==> r == Err(404, "Patient not found!")
    ensures (doctor in db.doctors && patient in db.patients
             && SlotTaken(old(db.appointments), doctor, BookedTime(requested, now), None)) ==>
      r == Err(400, "Doctor is not available at the requested time.")
    ensures r.Ok? <==> (doctor in db.doctors && patient in db.patients
                        && !SlotTaken(old(db.appointments), doctor, BookedTime(requested, now), None))
    ensures r.Err? ==> db.appointments == old(db.appointments) && db.notifications == old(db.notifications)
    ensures r.Ok? ==>
      && r.value.1 == Appointment(patient, doctor, BookedTime(requested, now), Pending, notes)
      && r.value.0 !in old(db.appointments)
      && db.appointments == old(db.appointments)[r.value.0 := r.value.1]
      && (exists n: Id :: n !in old(db.notifications) && db.notifications == old(db.notifications)[n :=
            Notification(Some(patient), PatientRole, "appointment_created",
              BookedMessage(db.doctors[doctor].name, localeString(r.value.1.appointmentDateTime)), false, now)])
    ensures r.Ok? ==> SlotTaken(db.appointments, doctor, BookedTime(requested, now), None)
  {
    if doctor !in db.doctors {
      return Err(404, "Doctor not found!");
    }
    var doctorExists := db.doctors[doctor];
    if patient !in db.patients {
      return Err(404, "Patient not found!");
    }
    var appointmentDate := BookedTime(requested, now);
    var conflicting := FindConflict(db.appointments, doctor, appointmentDate, None);
    if conflicting {
      return Err(400, "Doctor is not available at the requested time.");
    }
    var appointment := Appointment(patient, doctor, appointmentDate, Pending, notes);
    var id := db.InsertAppointment(appointment);
    assert Blocks(db.appointments[id], doctor, appointmentDate);
    var n := db.InsertNotification(Notification(Some(patient), PatientRole, "appointment_created",
      BookedMessage(doctorExists.name, localeString(appointmentDate)), false, now));
    r := Ok((id, appointment));
  }

  // ---------------------------------------------------------------- Status updates

  /**
   * `updateAppointmentStatus` on the stored appointments: the status must be
   * one of the four names and the appointment must exist; a reschedule with
   * a new time is refused when another appointment holds the doctor's slot
   * there, and a new time that is no date fails its cast with 500. Any
   * valid status may follow any status.
   */
  ghost function StatusUpdate(appts: map<Id, Appointment>, id: Id, status: Option<string>,
                              newDateTime: Param<Time>, notes: Option<string>): (r: Result<Appointment>)
    ensures status.None? || ParseStatus(status.value).None? ==> r == Err(400, "Invalid status value")
    ensures status.Some? && ParseStatus(status.value).Some? && id !in appts ==> r == Err(404, "Appointment not found")
    ensures (status.Some? && ParseStatus(status.value).Some? && id in appts
             && status.value == "rescheduled" && newDateTime.Malformed?) ==> r == Err(500, ServerFailure)
    ensures (status.Some? && ParseStatus(status.value).Some? && id in appts
             && status.value == "rescheduled" && newDateTime.Given?
             && SlotTaken(appts, appts[id].doctor, newDateTime.value, Some(id))) ==>
      r == Err(400, "Doctor is not available at the new requested time.")
    ensures r.Ok? <==>
      && status.Some? && ParseStatus(status.value).Some? && id in appts
      && !(status.value == "rescheduled" && newDateTime.Malformed?)
      && !(status.value == "rescheduled" && newDateTime.Given?
           && SlotTaken(appts, appts[id].doctor, newDateTime.value, Some(id)))
    ensures r.Err? && r.code == 400 && status.Some? && ParseStatus(status.value).Some? ==>
      r.message == "Doctor is not available at the new requested time."
    ensures r.Ok? ==>
      && StatusName(r.value.status) == status.value
      && r.value.patient == appts[id].patient && r.value.doctor == appts[id].doctor
      && r.value.appointmentDateTime ==
           (if status.value == "rescheduled" && newDateTime.Given? then newDateTime.value else appts[id].appointmentDateTime)
      && r.value.notes == (if Truthy(notes) then notes else appts[id].notes)
  {
    if status.None? || ParseStatus(status.value).None? then Err(400, "Invalid status value")
    else if id !in appts then Err(404, "Appointment not found")
    else
      var a := appts[id];
      if status.value == "rescheduled" && newDateTime.Malformed? then
        Err(500, ServerFailure)
      else if status.value == "rescheduled" && newDateTime.Given? && SlotTaken(appts, a.doctor, newDateTime.value, Some(id)) then
        Err(400, "Doctor is not available at the new requested time.")
      else
        var moved := if status.value == "rescheduled" && newDateTime.Given? then newDateTime.value else a.appointmentDateTime;
        Ok(a.(appointmentDateTime := moved, status := ParseStatus(status.value).value,
              notes := if Truthy(notes) then notes else a.notes))
  }

  /** Every status name parses back to its status. */
  lemma ParseStatusName(s: ApptStatus)
    ensures ParseStatus(StatusName(s)) == Some(s)
  {
  }

  /**
   * There is no transition table: from any stored appointment, setting any
   * of the four statuses without a new time succeeds, and only the status
   * (and the notes, when given) change.
   */
  lemma AnyStatusFromAnyStatus(appts: map<Id, Appointment>, id: Id, s: ApptStatus, notes: Option<string>)
    requires id in appts
    ensures StatusUpdate(appts, id, Some(StatusName(s)), Missing, notes).Ok?
    ensures StatusUpdate(appts, id, Some(StatusName(s)), Missing, notes).value ==
      appts[id].(status := s, notes := if Truthy(notes) then notes else appts[id].notes)
  {
    ParseStatusName(s);
  }

  /**
   * Approving runs no conflict check: a rejected appointment can be approved
   * into a slot that a pending appointment of the same doctor already holds,
   * leaving two appointments that both hold it.
   */
  lemma ApprovalCanDoubleBook()
    ensures var appts := map[0 := Appointment(1, 2, 1000, Rejected, None), 3 := Appointment(4, 2, 1000, Pending, None)];
      && StatusUpdate(appts, 0, Some("approved"), Missing, None).Ok?
      && Blocks(StatusUpdate(appts, 0, Some("approved"), Missing, None).value, 2, 1000)
      && Blocks(appts[3], 2, 1000)
  {
    var appts := map[0 := Appointment(1, 2, 1000, Rejected, None), 3 := Appointment(4, 2, 1000, Pending, None)];
    assert ParseStatus("approved") == Some(Approved);
  }

  /**
   * A rescheduled appointment holds no slot, not even the one it was moved
   * to: a later booking of that doctor at that time is not blocked by it.
   */
  lemma RescheduledHoldsNoSlot(appts: map<Id, Appointment>, id: Id, t: Time, notes: Option<string>)
    requires StatusUpdate(appts, id, Some("rescheduled"), Given(t), notes).Ok?
    ensures var a := StatusUpdate(appts, id, Some("rescheduled"), Given(t), notes).value;
      a.appointmentDateTime == t && !Blocks(a, a.doctor, t)
      && !SlotTaken(appts[id := a], a.doctor, t, None)
  {
    var a := StatusUpdate(appts, id, Some("rescheduled"), Given(t), notes).value;
    assert a.status == Rescheduled by {
      assert StatusName(a.status) == "rescheduled";
    }
  }

  /** The text of the status notification. */
  function UpdatedMessage(status: string): string {
    "Your appointment has been " + status + "."
  }

  /**
   * `updateAppointmentStatus`: the loaded appointment's fields are
   * overwritten and saved, and its patient is notified once.
   */
  method UpdateAppointmentStatus(db: Db, id: Id, status: Option<string>, newDateTime: Param<Time>,
                                 notes: Option<string>, now: Time)
    returns (r: Result<Appointment>)
    requires db.Valid()
    modifies db`appointments, db`notifications, db`nextId
    ensures db.Valid()
    ensures r == StatusUpdate(old(db.appointments), id, status, newDateTime, notes)
    ensures r.Err? ==> db.appointments == old(db.appointments) && db.notifications == old(db.notifications)
    ensures r.Ok? ==>
      && db.appointments == old(db.appointments)[id := r.value]
      && (exists n: Id :: n !in old(db.notifications) && db.notifications == old(db.notifications)[n :=
            Notification(Some(r.value.patient), PatientRole, "appointment_updated", UpdatedMessage(status.value), false, now)])
  {
    if status.None? || ParseStatus(status.value).None? {
      return Err(400, "Invalid status value");
    }
    if id !in db.appointments {
      return Err(404, "Appointment not found");
    }
    var appointment := db.appointments[id];
    if status.value == "rescheduled" && newDateTime.Malformed? {
      return Err(500, ServerFailure);
    }
    if status.value == "rescheduled" && newDateTime.Given? {
      var conflict := FindConflict(db.appointments, appointment.doctor, newDateTime.value, Some(id));
      if conflict {
        return Err(400, "Doctor is not available at the new requested time.");
      }
      appointment := appointment.(appointmentDateTime := newDateTime.value);
    }
    appointment := appointment.(status := ParseStatus(status.value).value);
    if Truthy(notes) {
      appointment := appointment.(notes := notes);
    }
    db.appointments := db.appointments[id := appointment];
    var n := db.InsertNotification(Notification(Some(appointment.patient), PatientRole, "appointment_updated",
      UpdatedMessage(status.value), false, now));
    r := Ok(appointment);
  }

  // ---------------------------------------------------------------- Deletion

  /** `deleteAppointment`: exactly the named appointment is removed. */
  method DeleteAppointment(db: Db, id: Id) returns (r: Result<()>)
    requires db.Valid()
    modifies db`appointments
    ensures db.Valid()
    ensures r.Ok? <==> id in old(db.appointments)
    ensures r.Err? ==> r == Err(404, "Appointment not found") && db.appointments == old(db.appointments)
    ensures r.Ok? ==> db.appointments == old(db.appointments) - {id}
  {
    if id !in db.appointments {
      return Err(404, "Appointment not found");
    }
    db.appointments := db.appointments - {id};
    r := Ok(());
  }
}
