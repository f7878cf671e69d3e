/** FeedbackService (feedback.service.ts): a tenant's report about a room,
    with images. Inline images (data URLs) are uploaded and replaced by the
    returned URL; the upload is a parameter. */
module FeedbackService {
  import opened Common
  import opened FeedbackEntity
  import opened Store

  /** `img.startsWith('data:image')`. */
  predicate IsDataImage(s: string) {
    |s| >= 10 && s[..10] == "data:image"
  }

  /** `images.map(img => img.startsWith('data:image') ? upload(img) : img)`:
      same length, same order, inline images swapped for their upload URL
      and every other entry kept. */
  function MapImages(images: seq<string>, upload: string -> string): (mapped: seq<string>)
    ensures |mapped| == |images|
    ensures forall i :: 0 <= i < |images| ==>
              mapped[i] == (if IsDataImage(images[i]) then upload(images[i]) else images[i])
  {
    if images == [] then []
    else
      var img := images[0];
      [if IsDataImage(img) then upload(img) else img] + MapImages(images[1..], upload)
  }

  /** Nothing inline, nothing changes. */
  lemma {:induction false} NoInlineImagesKept(images: seq<string>, upload: string -> string)
    requires forall i :: 0 <= i < |images| ==> !IsDataImage(images[i])
    ensures MapImages(images, upload) == images
  {
  }

  /** When uploads return ordinary URLs, mapping twice is mapping once. */
  lemma {:induction false} MapImagesIdempotent(images: seq<string>, upload: string -> string)
    requires forall s :: !IsDataImage(upload(s))
    ensures MapImages(MapImages(images, upload), upload) == MapImages(images, upload)
  {
    var once := MapImages(images, upload);
    forall i | 0 <= i < |once| ensures !IsDataImage(once[i]) {
    }
    NoInlineImagesKept(once, upload);
  }

  /** CreateFeedbackDto. */
  datatype CreateFeedbackDto = CreateFeedbackDto(title: string, description: string, roomId: Id,
                                                 images: Option<seq<string>>)

  /** The row `create` stores: the DTO's title and description, PENDING, by
      the caller, with the given images (none: `[]`) mapped. */
  function NewFeedback(dto: CreateFeedbackDto, userId: Id, upload: string -> string): (f: Feedback)
    ensures f.title == dto.title && f.description == dto.description
    ensures f.status == FeedbackPending && f.userId == userId && f.roomId == dto.roomId
    ensures f.images == Some(MapImages(dto.images.GetOr([]), upload))
    ensures dto.images.None? ==> f.images == Some([])
  {
    Feedback(dto.title, dto.description, FeedbackPending, Some(MapImages(dto.images.GetOr([]), upload)),
             dto.roomId, userId)
  }

  /** `create`: NotFound for an unknown room, else the new feedback. */
  method Create(db: Database, dto: CreateFeedbackDto, userId: Id, upload: string -> string) returns (r: Result<Id>)
    requires db.Valid()
    modifies db`feedbacks, db`nextId
    ensures db.Valid()
    ensures r.Err? <==> dto.roomId !in db.rooms
    ensures r.Err? ==> r.error == NotFound && db.feedbacks == old(db.feedbacks)
    ensures r.Ok? ==> r.value !in old(db.feedbacks)
                      && db.feedbacks == old(db.feedbacks)[r.value := NewFeedback(dto, userId, upload)]
  {
    if dto.roomId !in db.rooms {
      return Err(NotFound);
    }
    var id := db.NewId();
    db.feedbacks := db.feedbacks[id := NewFeedback(dto, userId, upload)];
    return Ok(id);
  }

  /** `update` permission: an ADMIN, any LANDLORD, or the author. */
  predicate MayUpdate(f: Feedback, userId: Id, role: Role) {
    role == Admin || role == Landlord || f.userId == userId
  }

  /** `remove` permission: an ADMIN or the author only. */
  predicate MayRemove(f: Feedback, userId: Id, role: Role) {
    role == Admin || f.userId == userId
  }

  /** Whoever may remove may update; a LANDLORD who is not the author may
      update but not remove. */
  lemma RemoveImpliesUpdate(f: Feedback, userId: Id, role: Role)
    ensures MayRemove(f, userId, role) ==> MayUpdate(f, userId, role)
    ensures role == Landlord && f.userId != userId ==> MayUpdate(f, userId, role) && !MayRemove(f, userId, role)
  {
  }

  /** UpdateFeedbackDto. */
  datatype UpdateFeedbackDto = UpdateFeedbackDto(title: Option<string>, description: Option<string>,
                                                 status: Option<FeedbackStatus>,
                                                 images: Option<seq<string>>)

  /** `Object.assign(fb, dto)` after the images are mapped. */
  function ApplyUpdate(f: Feedback, dto: UpdateFeedbackDto, upload: string -> string): (u: Feedback)
    ensures u.userId == f.userId && u.roomId == f.roomId
    ensures u.status == dto.status.GetOr(f.status)
    ensures dto.images.None? ==> u.images == f.images
    ensures dto.images.Some? ==> u.images == Some(MapImages(dto.images.value, upload))
    ensures u.title == dto.title.GetOr(f.title) && u.description == dto.description.GetOr(f.description)
    ensures u.(title := f.title, description := f.description, status := f.status, images := f.images) == f
  {
    f.(title := dto.title.GetOr(f.title),
       description := dto.description.GetOr(f.description),
       status := dto.status.GetOr(f.status),
       images := if dto.images.Some? then Some(MapImages(dto.images.value, upload)) else f.images)
  }

  /** `update`: NotFound, Forbidden without permission, else the merge.
      Any status may follow any other. */
  method Update(db: Database, id: Id, userId: Id, role: Role, dto: UpdateFeedbackDto,
                upload: string -> string) returns (r: Result<Feedback>)
    requires db.Valid()
    modifies db`feedbacks
    ensures db.Valid()
    ensures id !in old(db.feedbacks) ==> r == Err(NotFound)
    ensures id in old(db.feedbacks) && !MayUpdate(old(db.feedbacks[id]), userId, role) ==> r == Err(Forbidden)
    ensures r.Ok? <==> id in old(db.feedbacks) && MayUpdate(old(db.feedbacks[id]), userId, role)
    ensures r.Err? ==> db.feedbacks == old(db.feedbacks)
    ensures r.Ok? ==> r.value == ApplyUpdate(old(db.feedbacks[id]), dto, upload)
                      && db.feedbacks == old(db.feedbacks)[id := r.value]
  {
    if id !in db.feedbacks {
      return Err(NotFound);
    }
    var f := db.feedbacks[id];
    if role != Admin && role != Landlord && f.userId != userId {
      return Err(Forbidden);
    }
    var u := ApplyUpdate(f, dto, upload);
    db.feedbacks := db.feedbacks[id := u];
    return Ok(u);
  }

  /** `remove`: NotFound, Forbidden without permission, else deleted. */
  method Remove(db: Database, id: Id, userId: Id, role: Role) returns (r: Result<()>)
    requires db.Valid()
    modifies db`feedbacks
    ensures db.Valid()
    ensures id !in old(db.feedbacks) ==> r == Err(NotFound)
    ensures id in old(db.feedbacks) && !MayRemove(old(db.feedbacks[id]), userId, role) ==> r == Err(Forbidden)
    ensures r.Ok? <==> id in old(db.feedbacks) && MayRemove(old(db.feedbacks[id]), userId, role)
    ensures r.Err? ==> db.feedbacks == old(db.feedbacks)
    ensures r.Ok? ==> db.feedbacks == old(db.feedbacks) - {id}
  {
    if id !in db.feedbacks {
      return Err(NotFound);
    }
    if role != Admin && db.feedbacks[id].userId != userId {
      return Err(Forbidden);
    }
    db.feedbacks := db.feedbacks - {id};
    return Ok(());
  }
}
