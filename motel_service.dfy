/** MotelService (motel.service.ts): creating, editing and deleting motels
    with their image rows, and the filtered, sorted, paged listing. The
    URL check is a parameter. The slug `create` and `update` compute is
    not a column of the motel entity, so the save drops it and the model
    does not carry it. */
module MotelService {
  import opened Common
  import opened MotelEntity
  import opened Paging
  import opened Store
  import opened ImageRows

  /** CreateMotelDto. `logo` is not a column of the entity, so the save
      drops it. */
  datatype CreateMotelDto = CreateMotelDto(
    name: string,
    address: string,
    description: Option<string>,
    totalRooms: int,
    logo: Option<string>,
    latitude: Option<int>,
    longitude: Option<int>,
    images: Option<seq<string>>)

  /** The row `create` stores: the DTO's columns, owned by the caller;
      every other column takes its entity default. */
  function NewMotel(dto: CreateMotelDto, ownerId: Id): (m: Motel)
    ensures m.ownerId == ownerId
    ensures m.name == dto.name && m.address == dto.address && m.description == dto.description
    ensures m.totalRooms == dto.totalRooms && m.latitude == dto.latitude && m.longitude == dto.longitude
    ensures m.monthlyRent == None && m.alleyType == None && m.securityType == NoSecurity
    ensures !m.hasWifi && !m.hasParking && !m.hasElevator && !m.hasKitchen && !m.hasAirConditioner
    ensures !m.allowPets && !m.allowCooking
  {
    Motel(name := dto.name, address := dto.address, description := dto.description,
          totalRooms := dto.totalRooms, monthlyRent := None,
          latitude := dto.latitude, longitude := dto.longitude,
          alleyType := None, securityType := NoSecurity,
          hasWifi := false, hasParking := false, hasElevator := false, hasKitchen := false,
          hasAirConditioner := false, allowPets := false, allowCooking := false,
          ownerId := ownerId)
  }

  /** `create`: the URLs are checked before anything is written; the motel
      is stored, then its images under its id. */
  method Create(db: Database, userId: Id, dto: CreateMotelDto, isValidUrl: string -> bool) returns (r: Result<Id>)
    requires db.Valid()
    modifies db`motels, db`motelImages, db`nextId
    ensures db.Valid()
    ensures r.Err? <==> dto.images.Some? && !AllValidUrls(dto.images.value, isValidUrl)
    ensures r.Err? ==> r.error == BadRequest
    ensures r.Err? ==> db.motels == old(db.motels) && db.motelImages == old(db.motelImages)
    ensures r.Ok? ==> r.value !in old(db.motels) && r.value !in old(db.motelImages)
    ensures r.Ok? ==> db.motels == old(db.motels)[r.value := NewMotel(dto, userId)]
    ensures r.Ok? ==> db.motelImages == ReplaceImages(old(db.motelImages), r.value, dto.images.GetOr([]))
  {
    var urls := dto.images.GetOr([]);
    if urls != [] && !AllValidUrls(urls, isValidUrl) {
      return Err(BadRequest);
    }
    var id := db.NewId();
    db.motels := db.motels[id := NewMotel(dto, userId)];
    if urls != [] {
      db.motelImages := db.motelImages[id := urls];
    }
    return Ok(id);
  }

  /** UpdateMotelDto: every field optional; `logo` is dropped as on create. */
  datatype UpdateMotelDto = UpdateMotelDto(
    name: Option<string>,
    address: Option<string>,
    description: Option<string>,
    totalRooms: Option<int>,
    logo: Option<string>,
    latitude: Option<int>,
    longitude: Option<int>,
    images: Option<seq<string>>)

  /** The motel after `Object.assign`: supplied columns overwrite, an
      empty name included, and the owner stays. */
  function ApplyUpdate(m: Motel, dto: UpdateMotelDto): (u: Motel)
    ensures u.ownerId == m.ownerId
    ensures u.name == dto.name.GetOr(m.name) && u.address == dto.address.GetOr(m.address)
    ensures u.totalRooms == dto.totalRooms.GetOr(m.totalRooms)
    ensures dto.description.Some? ==> u.description == dto.description
    ensures dto.description.None? ==> u.description == m.description
    ensures dto.latitude.Some? ==> u.latitude == dto.latitude
    ensures dto.latitude.None? ==> u.latitude == m.latitude
    ensures dto.longitude.Some? ==> u.longitude == dto.longitude
    ensures dto.longitude.None? ==> u.longitude == m.longitude
    ensures u.(name := m.name, address := m.address, description := m.description,
               totalRooms := m.totalRooms, latitude := m.latitude, longitude := m.longitude) == m
  {
    m.(name := dto.name.GetOr(m.name),
       address := dto.address.GetOr(m.address),
       description := dto.description.OrElse(m.description),
       totalRooms := dto.totalRooms.GetOr(m.totalRooms),
       latitude := dto.latitude.OrElse(m.latitude),
       longitude := dto.longitude.OrElse(m.longitude))
  }

  /** An update that supplies no column (only images, or a logo, which is
      dropped) leaves the motel as it is. */
  lemma EmptyUpdateChangesNothing(m: Motel, logo: Option<string>, images: Option<seq<string>>)
    ensures ApplyUpdate(m, UpdateMotelDto(None, None, None, None, logo, None, None, images)) == m
  {
  }

  /** Applying the same update twice gives the same motel. */
  lemma UpdateIsIdempotent(m: Motel, dto: UpdateMotelDto)
    ensures ApplyUpdate(ApplyUpdate(m, dto), dto) == ApplyUpdate(m, dto)
  {
  }

  /** `update`: NotFound, Forbidden for someone else's motel; otherwise the
      motel is saved first, and then a supplied image list is checked and,
      when it passes, replaces the motel's images. A bad URL is reported
      after the motel was already saved. */
  method Update(db: Database, id: Id, userId: Id, role: Role, dto: UpdateMotelDto,
                isValidUrl: string -> bool) returns (r: Result<Id>)
    requires db.Valid()
    modifies db`motels, db`motelImages
    ensures db.Valid()
    ensures id !in old(db.motels) ==> r == Err(NotFound)
    ensures id in old(db.motels) && !OwnerOrAdmin(old(db.motels[id]).ownerId, userId, role) ==> r == Err(Forbidden)
    ensures (id !in old(db.motels) || !OwnerOrAdmin(old(db.motels[id]).ownerId, userId, role)) ==>
              db.motels == old(db.motels) && db.motelImages == old(db.motelImages)
    ensures (id in old(db.motels) && OwnerOrAdmin(old(db.motels[id]).ownerId, userId, role)) ==>
              && db.motels == old(db.motels)[id := ApplyUpdate(old(db.motels[id]), dto)]
              && (r.Err? <==> dto.images.Some? && !AllValidUrls(dto.images.value, isValidUrl))
              && (r.Err? ==> r.error == BadRequest && db.motelImages == old(db.motelImages))
              && (r.Ok? ==> r.value == id)
              && (r.Ok? && dto.images.None? ==> db.motelImages == old(db.motelImages))
              && (r.Ok? && dto.images.Some? ==>
                    db.motelImages == ReplaceImages(old(db.motelImages), id, dto.images.value))
  {
    if id !in db.motels {
      return Err(NotFound);
    }
    var m := db.motels[id];
    if role != Admin && m.ownerId != userId {
      return Err(Forbidden);
    }
    db.motels := db.motels[id := ApplyUpdate(m, dto)];
    if dto.images.Some? {
      var urls := dto.images.value;
      if urls != [] && !AllValidUrls(urls, isValidUrl) {
        return Err(BadRequest);
      }
      db.motelImages := ReplaceImages(db.motelImages, id, urls);
    }
    return Ok(id);
  }

  /** `remove`: NotFound, Forbidden for someone else's motel; otherwise its
      images are deleted and then the motel. */
  method Remove(db: Database, id: Id, userId: Id, role: Role) returns (r: Result<()>)
    requires db.Valid()
    modifies db`motels, db`motelImages
    ensures db.Valid()
    ensures id !in old(db.motels) ==> r == Err(NotFound)
    ensures id in old(db.motels) && !OwnerOrAdmin(old(db.motels[id]).ownerId, userId, role) ==> r == Err(Forbidden)
    ensures r.Ok? <==> id in old(db.motels) && OwnerOrAdmin(old(db.motels[id]).ownerId, userId, role)
    ensures r.Err? ==> db.motels == old(db.motels) && db.motelImages == old(db.motelImages)
    ensures r.Ok? ==> db.motels == old(db.motels) - {id} && db.motelImages == old(db.motelImages) - {id}
  {
    if id !in db.motels {
      return Err(NotFound);
    }
    if role != Admin && db.motels[id].ownerId != userId {
      return Err(Forbidden);
    }
    db.motelImages := db.motelImages - {id};
    db.motels := db.motels - {id};
    return Ok(());
  }

  /** The listing's WHERE parameters (the price bounds are not modelled). */
  datatype MotelFilter = MotelFilter(
    search: Option<string>,
    alleyType: Option<AlleyType>,
    securityType: Option<SecurityType>,
    hasWifi: Option<bool>,
    hasParking: Option<bool>,
    hasElevator: Option<bool>,
    allowPets: Option<bool>,
    allowCooking: Option<bool>)

  /** The listing's query parameters. */
  datatype MotelQuery = MotelQuery(
    page: Option<int>,
    limit: Option<int>,
    filter: MotelFilter,
    sortBy: Option<string>,
    sortOrder: Option<string>)

  /** The columns `findAll` may sort by. */
  const SortableFields: seq<string> := ["createdAt", "updatedAt", "name", "totalRooms", "monthlyRent"]

  /** The sort column: the requested one when it is listed, else createdAt. */
  function SortField(sortBy: Option<string>): (f: string)
    ensures f in SortableFields
    ensures sortBy.Some? && sortBy.value in SortableFields ==> f == sortBy.value
    ensures sortBy.None? || sortBy.value !in SortableFields ==> f == "createdAt"
  {
    var requested := sortBy.GetOr("createdAt");
    if requested in SortableFields then requested else "createdAt"
  }

  /** A column name from the request reaches the query only when listed. */
  lemma SortFieldWhitelisted(s: string)
    ensures SortField(Some(s)) == s <==> s in SortableFields
    ensures SortField(Some("price")) == "createdAt"
  {
  }

  /** Ascending only for exactly "ASC"; missing, "asc" or anything else is
      descending. */
  function Ascending(sortOrder: Option<string>): (asc: bool)
    ensures asc <==> sortOrder == Some("ASC")
  {
    sortOrder.GetOr("DESC") == "ASC"
  }

  /** The WHERE clause: the text search (LIKE on name, address or
      description, given as `contains`) when `search` is non-empty, the two
      enumerations when given, and each amenity flag when it is present,
      `false` included. */
  predicate Matches(m: Motel, q: MotelFilter, contains: (Motel, string) -> bool) {
    && (Truthy(q.search) ==> contains(m, q.search.value))
    && (q.alleyType.Some? ==> m.alleyType == q.alleyType)
    && (q.securityType.Some? ==> m.securityType == q.securityType.value)
    && (q.hasWifi.Some? ==> m.hasWifi == q.hasWifi.value)
    && (q.hasParking.Some? ==> m.hasParking == q.hasParking.value)
    && (q.hasElevator.Some? ==> m.hasElevator == q.hasElevator.value)
    && (q.allowPets.Some? ==> m.allowPets == q.allowPets.value)
    && (q.allowCooking.Some? ==> m.allowCooking == q.allowCooking.value)
  }

  /** `Matches` as the row test of the query. */
  function Keep(f: MotelFilter, contains: (Motel, string) -> bool): Motel -> bool {
    (m: Motel) => Matches(m, f, contains)
  }

  /** The listing `findAll` returns, with the sort it asked for. `data` is
      `None` for a page or limit below 1, where the offset or row count the
      query would send is not modelled. */
  datatype Listing = Listing(data: Option<seq<Motel>>, total: nat, page: int, limit: int,
                             totalPages: Option<int>, sortField: string, ascending: bool)

  /** `findAll` over the table in the order its ORDER BY gives: page and
      limit default to 1 and 10 only when absent, the matches are counted
      and one page of them is returned. */
  function FindAll(rows: seq<Motel>, q: MotelQuery, contains: (Motel, string) -> bool): (l: Listing)
    ensures l.page == q.page.GetOr(1) && l.limit == q.limit.GetOr(10)
    ensures l.sortField == SortField(q.sortBy) && l.ascending == Ascending(q.sortOrder)
    ensures l.total == |Filter(rows, Keep(q.filter, contains))|
    ensures l.totalPages == TotalPages(l.total, l.limit)
    ensures l.data.Some? <==> l.page >= 1 && l.limit >= 1
    ensures l.data.Some? ==> |l.data.value| <= l.limit && |l.data.value| <= l.total
    ensures l.data.Some? ==> forall m :: m in l.data.value ==> m in rows && Matches(m, q.filter, contains)
    ensures l.data.Some? ==> l.data.value == PageOf(Filter(rows, Keep(q.filter, contains)),
                                                   l.page, l.limit)
  {
    var page := DefaultIfAbsent(q.page, 1);
    var limit := DefaultIfAbsent(q.limit, 10);
    var matches := Filter(rows, Keep(q.filter, contains));
    var data := if page >= 1 && limit >= 1 then Some(PageOf(matches, page, limit)) else None;
    Listing(data, |matches|, page, limit, TotalPages(|matches|, limit), SortField(q.sortBy), Ascending(q.sortOrder))
  }

  const NoFilter := MotelFilter(None, None, None, None, None, None, None, None)

  /** With no query at all: page 1 of 10, newest first, every motel counted. */
  lemma DefaultListing(rows: seq<Motel>, contains: (Motel, string) -> bool)
    ensures var l := FindAll(rows, MotelQuery(None, None, NoFilter, None, None), contains);
            && l.page == 1 && l.limit == 10 && l.sortField == "createdAt" && !l.ascending
            && l.total == |rows| && l.data.Some?
  {
    FilterAll(rows, Keep(NoFilter, contains));
  }

  /** With a positive limit every matching motel is on one of the
      `totalPages` pages. */
  lemma {:induction false} EveryMatchIsListed(rows: seq<Motel>, q: MotelQuery, contains: (Motel, string) -> bool,
                                              m: Motel)
    requires q.limit.GetOr(10) >= 1
    requires m in rows && Matches(m, q.filter, contains)
    ensures exists page: int :: 1 <= page <= FindAll(rows, q, contains).totalPages.value
                              && m in FindAll(rows, q.(page := Some(page)), contains).data.value
  {
    var matches := Filter(rows, Keep(q.filter, contains));
    var limit := q.limit.GetOr(10);
    var i :| 0 <= i < |matches| && matches[i] == m;
    RowOnItsPage(matches, i, limit);
    RowPageWithinTotal(|matches|, i, limit);
    var page := i / limit + 1;
    var q' := q.(page := Some(page));
    assert m in FindAll(rows, q', contains).data.value;
  }
}
