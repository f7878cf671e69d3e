/** NotificationService (notification.service.ts): storing notices, the
    unread inbox of a user, marking a notice read and deleting one. */
module NotificationService {
  import opened Common
  import opened NotificationEntity
  import opened Store

  /** CreateNotificationDto: a notice addressed by e-mail, by user id, by
      role, or by none of them. */
  datatype NotificationDto = NotificationDto(title: string, message: string,
                                             toRole: Option<Role>,
                                             toUserId: Option<Id>,
                                             toEmail: Option<string>)

  /** A notice addressed to one user by id, as the contract-request flow
      sends them: no role, no e-mail. */
  function ToUser(title: string, message: string, userId: Id): (dto: NotificationDto)
    ensures dto.toUserId == Some(userId) && dto.toRole == None && dto.toEmail == None
  {
    NotificationDto(title, message, None, Some(userId), None)
  }

  /** `create`: a non-empty e-mail goes to `userService.findByEmail`, which
      the user service does not declare, so that branch throws (an HTTP 500)
      before anything is saved. Otherwise the given id, or nobody, is the
      addressee; the notice is unread and records who created it. */
  method Create(db: Database, dto: NotificationDto, createdById: Id) returns (r: Result<Id>)
    requires db.Valid()
    modifies db`notifications, db`nextId
    ensures db.Valid()
    ensures r.Err? <==> Truthy(dto.toEmail)
    ensures r.Err? ==> r.error == Crash
    ensures r.Err? ==> db.notifications == old(db.notifications) && db.nextId == old(db.nextId)
    ensures r.Ok? ==> r.value !in old(db.notifications)
    ensures r.Ok? ==> db.notifications == old(db.notifications)[r.value := Notification(dto.title, dto.message, dto.toRole,
                                                                                        dto.toUserId, Some(createdById), false)]
  {
    if Truthy(dto.toEmail) {
      return Err(Crash);
    }
    var id := db.NewId();
    db.notifications := db.notifications[id := Notification(dto.title, dto.message, dto.toRole,
                                                            dto.toUserId, Some(createdById), false)];
    return Ok(id);
  }

  /** `findMyNotifications` WHERE clause: unread, and addressed to the user,
      to the user's role, or to no role at all. */
  predicate Visible(n: Notification, userId: Id, role: Role) {
    !n.isRead && (n.toUserId == Some(userId) || n.toRole == Some(role) || n.toRole.None?)
  }

  /** `findMyNotifications` over the table in its order. */
  function MyNotifications(rows: seq<Notification>, userId: Id, role: Role): (inbox: seq<Notification>)
    ensures forall n :: n in inbox ==> n in rows && !n.isRead
    ensures forall n :: n in rows && !n.isRead && n.toUserId == Some(userId) ==> n in inbox
    ensures forall n :: n in rows && !n.isRead && n.toRole == Some(role) ==> n in inbox
    ensures forall n :: n in rows && !n.isRead && n.toRole.None? ==> n in inbox
    ensures forall n :: n in inbox ==> n.toUserId == Some(userId) || n.toRole == Some(role) || n.toRole == None
  {
    Filter(rows, (n: Notification) => Visible(n, userId, role))
  }

  /** The inbox test ignores the addressee when there is no role: an unread
      notice sent to one user by id lands in every user's inbox. */
  lemma DirectNoticeReachesEveryone(rows: seq<Notification>, n: Notification, other: Id, role: Role)
    requires n in rows && !n.isRead && n.toRole == None && n.toUserId.Some?
    ensures n in MyNotifications(rows, other, role)
  {
  }

  /** Read notices never show. */
  lemma ReadNoticesNeverShow(rows: seq<Notification>, n: Notification, userId: Id, role: Role)
    requires n in rows && n.isRead
    ensures n !in MyNotifications(rows, userId, role)
  {
  }

  /** A notice after `markAsRead`. */
  function MarkRead(n: Notification): (m: Notification)
    ensures m.isRead
    ensures m.(isRead := n.isRead) == n
  {
    n.(isRead := true)
  }

  /** Marking twice is marking once. */
  lemma MarkReadIdempotent(n: Notification)
    ensures MarkRead(MarkRead(n)) == MarkRead(n)
  {
  }

  /** Who may mark a notice read: anyone when it has no addressee, else the
      addressee only. */
  predicate MayMarkRead(n: Notification, userId: Id) {
    n.toUserId.None? || n.toUserId == Some(userId)
  }

  /** `markAsRead`: NotFound, Forbidden for a notice addressed to somebody
      else; otherwise the notice is read and no other changes. */
  method MarkAsRead(db: Database, id: Id, userId: Id) returns (r: Result<Notification>)
    requires db.Valid()
    modifies db`notifications
    ensures db.Valid()
    ensures id !in old(db.notifications) ==> r == Err(NotFound)
    ensures id in old(db.notifications) && !MayMarkRead(old(db.notifications[id]), userId) ==>
              r == Err(Forbidden)
    ensures r.Err? ==> db.notifications == old(db.notifications)
    ensures r.Ok? <==> id in old(db.notifications) && MayMarkRead(old(db.notifications[id]), userId)
    ensures r.Ok? ==> r.value == MarkRead(old(db.notifications[id]))
                      && db.notifications == old(db.notifications)[id := r.value]
  {
    if id !in db.notifications {
      return Err(NotFound);
    }
    var n := db.notifications[id];
    if n.toUserId.Some? && n.toUserId.value != userId {
      return Err(Forbidden);
    }
    var m := MarkRead(n);
    db.notifications := db.notifications[id := m];
    return Ok(m);
  }

  /** `remove`: NotFound when nothing was deleted. Anyone may delete any
      notice. */
  method Remove(db: Database, id: Id) returns (r: Result<()>)
    requires db.Valid()
    modifies db`notifications
    ensures db.Valid()
    ensures r.Ok? <==> id in old(db.notifications)
    ensures r.Err? ==> r.error == NotFound && db.notifications == old(db.notifications)
    ensures db.notifications == old(db.notifications) - {id}
  {
    if id !in db.notifications {
      return Err(NotFound);
    }
    db.notifications := db.notifications - {id};
    return Ok(());
  }

  /** One notice more than before, under a key that was not used. */
  ghost predicate AddedOne(before: map<Id, Notification>, after: map<Id, Notification>, n: Notification) {
    exists k: Id :: k !in before && after == before[k := n]
  }

  /** A notice sent with `ToUser`, as the contract-request flow stores it. */
  method Notify(db: Database, title: string, message: string, toUserId: Id, createdById: Id)
    requires db.Valid()
    modifies db`notifications, db`nextId
    ensures db.Valid()
    ensures AddedOne(old(db.notifications), db.notifications,
                     Notification(title, message, None, Some(toUserId), Some(createdById), false))
  {
    var r := Create(db, ToUser(title, message, toUserId), createdById);
  }
}
