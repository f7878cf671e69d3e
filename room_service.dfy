/** RoomService (room.service.ts): creating, editing and deleting rooms, the
    status switch, the "my rooms" listing and the public search, which also
    lists motels. Slugs carry a random suffix, so the fresh slug is a
    parameter. */
module RoomService {
  import opened Common
  import opened RoomEntity
  import opened MotelEntity
  import opened ContractEntity
  import opened Paging
  import opened Store
  import opened ImageRows

  /** CreateRoomDto without `motelId`, which is not a room column and so is
      dropped by the save. */
  datatype CreateRoomDto = CreateRoomDto(number: string, area: int, price: int,
                                         amenities: seq<string>,
                                         images: Option<seq<string>>)

  /** `create`: the URLs are checked before anything is written; the room
      is VACANT, owned by the caller and has the fresh slug; its images are
      saved under its id. */
  method Create(db: Database, dto: CreateRoomDto, ownerId: Id, slug: string,
                isValidUrl: string -> bool) returns (r: Result<Id>)
    requires db.Valid()
    modifies db`rooms, db`roomImages, db`nextId
    ensures db.Valid()
    ensures r.Err? <==> dto.images.Some? && !AllValidUrls(dto.images.value, isValidUrl)
    ensures r.Err? ==> r.error == BadRequest
    ensures r.Err? ==> db.rooms == old(db.rooms) && db.roomImages == old(db.roomImages)
    ensures r.Ok? ==> r.value !in old(db.rooms) && r.value !in old(db.roomImages)
    ensures r.Ok? ==> db.rooms == old(db.rooms)[r.value :=
                        NewRoom(dto.number, slug, dto.area, dto.price, dto.amenities, ownerId)]
    ensures r.Ok? ==> db.roomImages == ReplaceImages(old(db.roomImages), r.value, dto.images.GetOr([]))
  {
    var urls := dto.images.GetOr([]);
    if urls != [] && !AllValidUrls(urls, isValidUrl) {
      return Err(BadRequest);
    }
    var id := db.NewId();
    db.rooms := db.rooms[id := NewRoom(dto.number, slug, dto.area, dto.price, dto.amenities, ownerId)];
    if urls != [] {
      db.roomImages := db.roomImages[id := urls];
    }
    return Ok(id);
  }

  /** UpdateRoomDto: every field optional. `tenantId` is among them, so an
      owner can set a tenant by hand; nothing else in the core does. */
  datatype UpdateRoomDto = UpdateRoomDto(
    number: Option<string>,
    area: Option<int>,
    price: Option<int>,
    amenities: Option<seq<string>>,
    status: Option<RoomStatus>,
    tenantId: Option<Id>,
    images: Option<seq<string>>)

  /** `Object.assign(room, roomData)` after the slug step: supplied fields
      overwrite, the rest stay; the slug is renewed only when a non-empty
      number different from the current one is supplied. */
  function ApplyUpdate(room: Room, dto: UpdateRoomDto, slug: string): (u: Room)
    ensures u.ownerId == room.ownerId && u.motelOwnerId == room.motelOwnerId
    ensures u.slug != room.slug ==> u.slug == slug
    ensures u.slug == (if Truthy(dto.number) && dto.number.value != room.number then slug else room.slug)
    ensures u.number == dto.number.GetOr(room.number) && u.area == dto.area.GetOr(room.area)
    ensures u.price == dto.price.GetOr(room.price) && u.amenities == dto.amenities.GetOr(room.amenities)
    ensures dto.status.Some? ==> u.status == dto.status.value
    ensures dto.status.None? ==> u.status == room.status
    ensures dto.tenantId.Some? ==> u.tenantId == dto.tenantId
    ensures dto.tenantId.None? ==> u.tenantId == room.tenantId
    ensures u.(slug := room.slug, number := room.number, area := room.area, price := room.price,
               amenities := room.amenities, status := room.status, tenantId := room.tenantId) == room
  {
    room.(slug := RenewedSlug(room.slug, room.number, dto.number, slug),
          number := dto.number.GetOr(room.number),
          area := dto.area.GetOr(room.area),
          price := dto.price.GetOr(room.price),
          amenities := dto.amenities.GetOr(room.amenities),
          status := dto.status.GetOr(room.status),
          tenantId := dto.tenantId.OrElse(room.tenantId))
  }

  /** An update that supplies nothing leaves the room as it is. */
  lemma EmptyUpdateChangesNothing(room: Room, slug: string)
    ensures ApplyUpdate(room, UpdateRoomDto(None, None, None, None, None, None, None), slug) == room
  {
  }

  /** Repeating an update changes nothing more, fresh slug included: after
      the first, the supplied number is the current one. */
  lemma UpdateIsIdempotent(room: Room, dto: UpdateRoomDto, slug1: string, slug2: string)
    ensures ApplyUpdate(ApplyUpdate(room, dto, slug1), dto, slug2) == ApplyUpdate(room, dto, slug1)
  {
  }

  /** `update`: NotFound, then Forbidden for anyone but the owner or an
      ADMIN. The row is saved before the image URLs are checked, so a bad
      URL is a BadRequest with the room already changed; supplied images
      replace the old ones. */
  method Update(db: Database, id: Id, userId: Id, role: Role, dto: UpdateRoomDto,
                slug: string, isValidUrl: string -> bool) returns (r: Result<Room>)
    requires db.Valid()
    modifies db`rooms, db`roomImages
    ensures db.Valid()
    ensures id !in old(db.rooms) ==> r == Err(NotFound)
    ensures id in old(db.rooms) && !OwnerOrAdmin(old(db.rooms[id]).ownerId, userId, role) ==>
              r == Err(Forbidden)
    ensures r == Err(NotFound) || r == Err(Forbidden) ==>
              db.rooms == old(db.rooms) && db.roomImages == old(db.roomImages)
    ensures id in old(db.rooms) && OwnerOrAdmin(old(db.rooms[id]).ownerId, userId, role) ==>
              && db.rooms == old(db.rooms)[id := ApplyUpdate(old(db.rooms[id]), dto, slug)]
              && (r.Err? <==> dto.images.Some? && !AllValidUrls(dto.images.value, isValidUrl))
              && (r.Err? ==> r.error == BadRequest && db.roomImages == old(db.roomImages))
              && (r.Ok? ==> r.value == db.rooms[id])
              && (r.Ok? && dto.images.None? ==> db.roomImages == old(db.roomImages))
              && (r.Ok? && dto.images.Some? ==>
                    db.roomImages == ReplaceImages(old(db.roomImages), id, dto.images.value))
  {
    if id !in db.rooms {
      return Err(NotFound);
    }
    var room := db.rooms[id];
    if role != Admin && room.ownerId != userId {
      return Err(Forbidden);
    }
    db.rooms := db.rooms[id := ApplyUpdate(room, dto, slug)];
    if dto.images.Some? {
      var urls := dto.images.value;
      if urls != [] && !AllValidUrls(urls, isValidUrl) {
        return Err(BadRequest);
      }
      db.roomImages := ReplaceImages(db.roomImages, id, urls);
    }
    return Ok(db.rooms[id]);
  }

  /** Some ACTIVE contract is for this room. */
  predicate HasActiveContract(contracts: map<Id, Contract>, roomId: Id) {
    exists k :: k in contracts && contracts[k].roomId == Some(roomId) && contracts[k].status == Active
  }

  /** `remove`: NotFound, Forbidden for anyone but the owner or an ADMIN,
      BadRequest while an ACTIVE contract is for the room; otherwise the
      room is deleted. */
  method Remove(db: Database, id: Id, userId: Id, role: Role) returns (r: Result<()>)
    requires db.Valid()
    modifies db`rooms
    ensures db.Valid()
    ensures id !in old(db.rooms) ==> r == Err(NotFound)
    ensures id in old(db.rooms) && !OwnerOrAdmin(old(db.rooms[id]).ownerId, userId, role) ==>
              r == Err(Forbidden)
    ensures (id in old(db.rooms) && OwnerOrAdmin(old(db.rooms[id]).ownerId, userId, role)
             && HasActiveContract(db.contracts, id)) ==> r == Err(BadRequest)
    ensures r.Ok? <==> id in old(db.rooms) && OwnerOrAdmin(old(db.rooms[id]).ownerId, userId, role)
                       && !HasActiveContract(db.contracts, id)
    ensures r.Ok? ==> db.rooms == old(db.rooms) - {id}
    ensures r.Err? ==> db.rooms == old(db.rooms)
  {
    if id !in db.rooms {
      return Err(NotFound);
    }
    if role != Admin && db.rooms[id].ownerId != userId {
      return Err(Forbidden);
    }
    if exists k :: k in db.contracts && db.contracts[k].roomId == Some(id) && db.contracts[k].status == Active {
      return Err(BadRequest);
    }
    db.rooms := db.rooms - {id};
    return Ok(());
  }

  /** `updateStatus`: any status may follow any other; no permission check
      and no link to the room's contracts. */
  method UpdateStatus(db: Database, id: Id, status: RoomStatus) returns (r: Result<Room>)
    requires db.Valid()
    modifies db`rooms
    ensures db.Valid()
    ensures id !in old(db.rooms) ==> r == Err(NotFound) && db.rooms == old(db.rooms)
    ensures id in old(db.rooms) ==> r.Ok? && r.value == old(db.rooms[id]).(status := status)
    ensures id in old(db.rooms) ==> db.rooms == old(db.rooms)[id := r.value]
  {
    if id !in db.rooms {
      return Err(NotFound);
    }
    var room := db.rooms[id].(status := status);
    db.rooms := db.rooms[id := room];
    return Ok(room);
  }

  /** The row `findMyRooms` selects: a caller whose role string is
      'TENANT' sees the rooms they rent, anyone else the rooms they own. */
  predicate IsMine(room: Room, userId: Id, role: Option<Role>, status: Option<RoomStatus>) {
    && (if role == Some(Tenant) then room.tenantId == Some(userId) else room.ownerId == userId)
    && (status.Some? ==> room.status == status.value)
  }

  /** `findMyRooms` over the table in its order. */
  function FindMyRooms(rows: seq<Room>, userId: Id, role: Option<Role>, status: Option<RoomStatus>): (mine: seq<Room>)
    ensures forall x :: x in mine <==>
              && x in rows
              && (if role == Some(Tenant) then x.tenantId == Some(userId) else x.ownerId == userId)
              && (status.Some? ==> x.status == status.value)
  {
    Filter(rows, (x: Room) => IsMine(x, userId, role, status))
  }

  /** `findVacant`. */
  function FindVacant(rows: seq<Room>): (vacant: seq<Room>)
    ensures forall x :: x in vacant <==> x in rows && x.status == Vacant
  {
    Filter(rows, (x: Room) => x.status == Vacant)
  }

  /** SearchRoomDto with the keyword left out. `searchType` and `sort` are
      free strings; the numbers and flags are as class-validator hands
      them over. */
  datatype SearchQuery = SearchQuery(
    searchType: Option<string>,
    minPrice: Option<int>,
    maxPrice: Option<int>,
    page: Option<int>,
    limit: Option<int>,
    hasAirConditioner: Option<bool>,
    hasWifi: Option<bool>,
    hasKitchen: Option<bool>,
    hasParking: Option<bool>,
    sort: Option<string>)

  /** The DTO's `@Min(1)` on page and `@Min(1) @Max(100)` on limit. */
  predicate PagingValid(q: SearchQuery) {
    && (q.page.Some? ==> q.page.value >= 1)
    && (q.limit.Some? ==> 1 <= q.limit.value <= 100)
  }

  /** `if (x)` on an optional number: set and non-zero. */
  predicate TruthyNumber(x: Option<int>) {
    x.Some? && x.value != 0
  }

  /** The WHERE clause of the room branch: VACANT, a price bound only when
      it is truthy, an amenity only when asked for. */
  predicate RoomMatches(room: Room, q: SearchQuery) {
    && room.status == Vacant
    && (TruthyNumber(q.minPrice) ==> room.price >= q.minPrice.value)
    && (TruthyNumber(q.maxPrice) ==> room.price <= q.maxPrice.value)
    && (q.hasAirConditioner == Some(true) ==> room.hasAirConditioner)
    && (q.hasWifi == Some(true) ==> room.hasWifi)
    && (q.hasKitchen == Some(true) ==> room.hasKitchen)
  }

  /** The WHERE clause of the motel branch: only the four amenity flags. */
  predicate MotelMatches(m: Motel, q: SearchQuery) {
    && (q.hasWifi == Some(true) ==> m.hasWifi)
    && (q.hasParking == Some(true) ==> m.hasParking)
    && (q.hasKitchen == Some(true) ==> m.hasKitchen)
    && (q.hasAirConditioner == Some(true) ==> m.hasAirConditioner)
  }

  datatype RoomOrder = PriceAscending | PriceDescending | NewestFirst

  /** The ORDER BY of the room branch; any other `sort` is newest first. */
  function RoomOrderOf(sort: Option<string>): (o: RoomOrder)
    ensures o == PriceAscending <==> sort == Some("price_asc")
    ensures o == PriceDescending <==> sort == Some("price_desc")
  {
    if sort == Some("price_asc") then PriceAscending
    else if sort == Some("price_desc") then PriceDescending
    else NewestFirst
  }

  /** What both branches return. */
  datatype SearchPage<T> = SearchPage(data: seq<T>, total: nat, page: int, limit: int,
                                      totalPages: Option<int>)

  /** One page of the rows `keep` selects, with `page || 1`, `limit || 12`,
      the count of all matches and `Math.ceil(total / limit)`. */
  function Paginate<T(!new)>(rows: seq<T>, keep: T -> bool, page: Option<int>, limit: Option<int>): (p: SearchPage<T>)
    requires page.Some? ==> page.value >= 1
    requires limit.Some? ==> 1 <= limit.value <= 100
    ensures p.page == page.GetOr(1) && p.limit == limit.GetOr(12)
    ensures 1 <= p.page && 1 <= p.limit <= 100
    ensures |p.data| <= p.limit && p.total <= |rows| && |p.data| <= p.total
    ensures forall x :: x in p.data ==> x in rows && keep(x)
    ensures p.total == |Filter(rows, keep)|
    ensures p.data == PageOf(Filter(rows, keep), p.page, p.limit)
    ensures p.totalPages == TotalPages(p.total, p.limit) && p.totalPages.Some?
  {
    var pageNo := OrDefault(page, 1);
    var size := OrDefault(limit, 12);
    var matches := Filter(rows, keep);
    var data := PageOf(matches, pageNo, size);
    SearchPage(data, |matches|, pageNo, size, TotalPages(|matches|, size))
  }

  /** Every row the query selects is on one of the `totalPages` pages. */
  lemma {:induction false} EveryMatchIsOnSomePage<T(!new)>(rows: seq<T>, keep: T -> bool,
                                                          limit: Option<int>, x: T)
    requires limit.Some? ==> 1 <= limit.value <= 100
    requires x in rows && keep(x)
    ensures exists page: int :: 1 <= page <= Paginate(rows, keep, None, limit).totalPages.value
                              && x in Paginate(rows, keep, Some(page), limit).data
  {
    var matches := Filter(rows, keep);
    var size := OrDefault(limit, 12);
    var i :| 0 <= i < |matches| && matches[i] == x;
    RowOnItsPage(matches, i, size);
    RowPageWithinTotal(|matches|, i, size);
    var page := i / size + 1;
    assert x in Paginate(rows, keep, Some(page), limit).data;
  }

  /** The two result shapes of `searchPublic`. */
  datatype SearchResult = RoomsFound(rooms: SearchPage<Room>) | MotelsFound(motels: SearchPage<Motel>)

  /** `searchPublic` over the room and motel tables in the order the query
      asks for. Type 'MOTEL' searches motels (newest first), anything else
      searches VACANT rooms. */
  function SearchPublic(rooms: seq<Room>, motels: seq<Motel>, q: SearchQuery): (r: SearchResult)
    requires PagingValid(q)
    ensures r.MotelsFound? <==> q.searchType == Some("MOTEL")
    ensures r.RoomsFound? ==> forall x :: x in r.rooms.data ==> x in rooms && RoomMatches(x, q)
    ensures r.RoomsFound? ==> forall x :: x in r.rooms.data ==> x.status == Vacant
    ensures r.RoomsFound? ==> r.rooms == Paginate(rooms, (x: Room) => RoomMatches(x, q), q.page, q.limit)
    ensures r.MotelsFound? ==> forall x :: x in r.motels.data ==> x in motels && MotelMatches(x, q)
    ensures r.MotelsFound? ==> r.motels == Paginate(motels, (x: Motel) => MotelMatches(x, q), q.page, q.limit)
  {
    if q.searchType == Some("MOTEL") then
      MotelsFound(Paginate(motels, (x: Motel) => MotelMatches(x, q), q.page, q.limit))
    else
      RoomsFound(Paginate(rooms, (x: Room) => RoomMatches(x, q), q.page, q.limit))
  }

  /** A room search never shows a room `findVacant` would not list. */
  lemma SearchShowsOnlyVacantRooms(rooms: seq<Room>, motels: seq<Motel>, q: SearchQuery, x: Room)
    requires PagingValid(q) && q.searchType != Some("MOTEL")
    ensures x in SearchPublic(rooms, motels, q).rooms.data ==> x in FindVacant(rooms)
  {
  }

  /** A page of rows sorted by `key` is sorted by `key`. */
  lemma {:induction false} PageKeepsOrder<T(!new)>(rows: seq<T>, keep: T -> bool, page: Option<int>,
                                                   limit: Option<int>, key: T -> int)
    requires page.Some? ==> page.value >= 1
    requires limit.Some? ==> 1 <= limit.value <= 100
    requires SortedBy(rows, key)
    ensures SortedBy(Paginate(rows, keep, page, limit).data, key)
  {
    FilterKeepsOrder(rows, keep, key);
    PageOfKeepsOrder(Filter(rows, keep), OrDefault(page, 1), OrDefault(limit, 12), key);
  }

  /** Rows sorted by price on input stay sorted on every page. */
  lemma PriceOrderKept(rooms: seq<Room>, motels: seq<Motel>, q: SearchQuery)
    requires PagingValid(q) && q.searchType != Some("MOTEL")
    ensures RoomOrderOf(q.sort) == PriceAscending && SortedBy(rooms, (x: Room) => x.price) ==>
              SortedBy(SearchPublic(rooms, motels, q).rooms.data, (x: Room) => x.price)
    ensures RoomOrderOf(q.sort) == PriceDescending && SortedBy(rooms, (x: Room) => -x.price) ==>
              SortedBy(SearchPublic(rooms, motels, q).rooms.data, (x: Room) => -x.price)
  {
    var keep := (x: Room) => RoomMatches(x, q);
    if SortedBy(rooms, (x: Room) => x.price) {
      PageKeepsOrder(rooms, keep, q.page, q.limit, (x: Room) => x.price);
    }
    if SortedBy(rooms, (x: Room) => -x.price) {
      PageKeepsOrder(rooms, keep, q.page, q.limit, (x: Room) => -x.price);
    }
  }
}
