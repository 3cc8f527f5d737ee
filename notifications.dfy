/**
 * The notification controller (backend/controllers/notificationController.js):
 * per-user and admin listings, the read flags, and deletion.
 */
module Notifications {
  import opened Common
  import opened Models
  import opened Store
  import Query
  import Sorting

  /** `req.params.patientId || req.params.doctorId`. */
  function UserParam(patientId: Option<Id>, doctorId: Option<Id>): (r: Option<Id>)
    ensures r.None? <==> patientId.None? && doctorId.None?
    ensures patientId.Some? ==> r == patientId
  {
    if patientId.Some? then patientId else doctorId
  }

  /** The filter `{ user: userId }`. */
  function ForUser(userId: Id): (Id, Notification) -> bool {
    (k: Id, n: Notification) => n.user == Some(userId)
  }

  /** The sort key `createdAt`. */
  function Created(p: (Id, Notification)): real {
    p.1.createdAt as real
  }

  /**
   * `getUserNotifications`: 400 when the route names no user; otherwise
   * that user's notifications, newest first.
   */
  method GetUserNotifications(db: Db, patientId: Option<Id>, doctorId: Option<Id>)
    returns (r: Result<seq<(Id, Notification)>>)
    ensures r.Err? <==> patientId.None? && doctorId.None?
    ensures r.Err? ==> r == Err(400, "Missing userId parameter")
    ensures r.Ok? ==>
      && multiset(r.value) == multiset(Query.Selected(db.notifications, ForUser(UserParam(patientId, doctorId).value)))
      && Sorting.SortedBy(r.value, Created, true)
      && forall p :: p in r.value ==> p.0 in db.notifications && p.1.user == UserParam(patientId, doctorId)
  {
    var userId := UserParam(patientId, doctorId);
    if userId.None? {
      return Err(400, "Missing userId parameter");
    }
    var found := Query.Collect(db.notifications, ForUser(userId.value));
    var sorted := Sorting.Sort(found, Created, true);
    assert forall p :: p in sorted ==> p in multiset(found);
    r := Ok(sorted);
  }

  /** The filter `{}`. */
  function AnyNotification(): (Id, Notification) -> bool {
    (k: Id, n: Notification) => true
  }

  /** `getAllAdminNotifications`: every notification, newest first. */
  method GetAllAdminNotifications(db: Db) returns (r: seq<(Id, Notification)>)
    ensures multiset(r) == multiset(Query.Selected(db.notifications, AnyNotification()))
    ensures Sorting.SortedBy(r, Created, true)
  {
    var found := Query.Collect(db.notifications, AnyNotification());
    r := Sorting.Sort(found, Created, true);
  }

  /**
   * `updateMany(filter, { $set: { isRead: true } })`: every notification
   * the filter selects is read afterwards and nothing else about any
   * notification changes.
   */
  function MarkWhere(ns: map<Id, Notification>, sel: Notification -> bool): (r: map<Id, Notification>)
    ensures r.Keys == ns.Keys
    ensures forall k :: k in r ==> (r[k].isRead <==> ns[k].isRead || sel(ns[k]))
    ensures forall k :: k in r ==> r[k].(isRead := false) == ns[k].(isRead := false)
  {
    map k | k in ns :: if sel(ns[k]) then ns[k].(isRead := true) else ns[k]
  }

  /** The user filter `{ user: userId, isRead: false }` of mark-all. */
  function UnreadOf(userId: Id): Notification -> bool {
    (n: Notification) => n.user == Some(userId) && !n.isRead
  }

  /** The admin filter `{ isRead: false }`. */
  function Unread(): Notification -> bool {
    (n: Notification) => !n.isRead
  }

  /** Marking a user's notifications leaves other users' notifications as they were. */
  lemma MarkUserLeavesOthers(ns: map<Id, Notification>, userId: Id, k: Id)
    requires k in ns && ns[k].user != Some(userId)
    ensures MarkWhere(ns, UnreadOf(userId))[k] == ns[k]
  {
  }

  /** After a mark-all, running it again changes nothing. */
  lemma MarkAllIdempotent(ns: map<Id, Notification>, userId: Id)
    ensures MarkWhere(MarkWhere(ns, UnreadOf(userId)), UnreadOf(userId)) == MarkWhere(ns, UnreadOf(userId))
    ensures MarkWhere(MarkWhere(ns, Unread()), Unread()) == MarkWhere(ns, Unread())
  {
  }

  /**
   * `markAllUserNotificationsAsRead`: 400 when the route names no user;
   * otherwise every notification of that user is read afterwards.
   */
  method MarkAllUserNotificationsAsRead(db: Db, patientId: Option<Id>, doctorId: Option<Id>) returns (r: Result<()>)
    requires db.Valid()
    modifies db`notifications
    ensures db.Valid()
    ensures r.Err? <==> patientId.None? && doctorId.None?
    ensures r.Err? ==> r == Err(400, "Missing userId parameter") && db.notifications == old(db.notifications)
    ensures r.Ok? ==> db.notifications == MarkWhere(old(db.notifications), UnreadOf(UserParam(patientId, doctorId).value))
    ensures r.Ok? ==> forall k :: k in db.notifications && db.notifications[k].user == UserParam(patientId, doctorId) ==>
      db.notifications[k].isRead
  {
    var userId := UserParam(patientId, doctorId);
    if userId.None? {
      return Err(400, "Missing userId parameter");
    }
    db.notifications := MarkWhere(db.notifications, UnreadOf(userId.value));
    r := Ok(());
  }

  /** `markAllAdminNotificationsAsRead`: every notification is read afterwards. */
  method MarkAllAdminNotificationsAsRead(db: Db)
    requires db.Valid()
    modifies db`notifications
    ensures db.Valid()
    ensures db.notifications == MarkWhere(old(db.notifications), Unread())
    ensures forall k :: k in db.notifications ==> db.notifications[k].isRead
  {
    db.notifications := MarkWhere(db.notifications, Unread());
  }

  /**
   * `markUserNotificationAsRead` and `markAdminNotificationAsRead`: the
   * loaded notification's flag is set and saved; a second call finds it
   * already read and changes nothing.
   */
  method MarkNotificationAsRead(db: Db, id: Id) returns (r: Result<Notification>)
    requires db.Valid()
    modifies db`notifications
    ensures db.Valid()
    ensures r.Ok? <==> id in old(db.notifications)
    ensures r.Err? ==> r == Err(404, "Notification not found") && db.notifications == old(db.notifications)
    ensures r.Ok? ==>
      && r.value == old(db.notifications)[id].(isRead := true)
      && db.notifications == old(db.notifications)[id := r.value]
    ensures r.Ok? && old(db.notifications)[id].isRead ==> db.notifications == old(db.notifications)
  {
    if id !in db.notifications {
      return Err(404, "Notification not found");
    }
    var notification := db.notifications[id];
    notification := notification.(isRead := true);
    db.notifications := db.notifications[id := notification];
    r := Ok(notification);
  }

  /** `deleteNotification`: exactly the named notification is removed. */
  method DeleteNotification(db: Db, id: Id) returns (r: Result<()>)
    requires db.Valid()
    modifies db`notifications
    ensures db.Valid()
    ensures r.Ok? <==> id in old(db.notifications)
    ensures r.Err? ==> r == Err(404, "Notification not found") && db.notifications == old(db.notifications)
    ensures r.Ok? ==> db.notifications == old(db.notifications) - {id}
  {
    if id !in db.notifications {
      return Err(404, "Notification not found");
    }
    db.notifications := db.notifications - {id};
    r := Ok(());
  }
}
