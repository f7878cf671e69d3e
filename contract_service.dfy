/** ContractService (contract.service.ts): the binding contracts. Creating
    one marks its room OCCUPIED, removing one marks it VACANT; neither looks
    at the room's other contracts or at bills. */
module ContractService {
  import opened Common
  import opened RoomEntity
  import opened ContractEntity
  import opened Store

  /** `create`: NotFound when the room is unknown; otherwise the room becomes
      OCCUPIED whatever its status was and the contract is stored ACTIVE
      with the entity defaults. */
  method Create(db: Database, input: ContractInput) returns (r: Result<Id>)
    requires db.Valid()
    modifies db`rooms, db`contracts, db`nextId
    ensures db.Valid()
    ensures r.Err? <==> input.roomId !in old(db.rooms)
    ensures r.Err? ==> r.error == NotFound
    ensures r.Err? ==> db.rooms == old(db.rooms) && db.contracts == old(db.contracts)
    ensures r.Ok? ==> r.value !in old(db.contracts)
    ensures r.Ok? ==> db.contracts == old(db.contracts)[r.value := NewContract(input)]
    ensures r.Ok? ==> db.rooms == old(db.rooms)[input.roomId := old(db.rooms[input.roomId]).(status := Occupied)]
  {
    if input.roomId !in db.rooms {
      return Err(NotFound);
    }
    var room := db.rooms[input.roomId];
    db.rooms := db.rooms[input.roomId := room.(status := Occupied)];
    var id := db.NewId();
    db.contracts := db.contracts[id := NewContract(input)];
    return Ok(id);
  }

  /** The `room` relation `findOne` loads: absent when the contract has no
      room id or the room is gone. */
  function RoomOf(rooms: map<Id, Room>, c: Contract): (room: Option<Room>)
    ensures room.Some? <==> c.roomId.Some? && c.roomId.value in rooms
    ensures room.Some? ==> room.value == rooms[c.roomId.value]
  {
    if c.roomId.Some? && c.roomId.value in rooms then Some(rooms[c.roomId.value]) else None
  }

  /** `userRole !== ADMIN && contract.room.motel.ownerId !== userId`: an
      ADMIN passes; anyone else needs the room's motel owner to be them, is
      Forbidden when it is someone else, and crashes (TypeError) when there
      is no room or no motel owner to dereference. */
  function EditCheck(rooms: map<Id, Room>, c: Contract, userId: Id, role: Role): (e: Option<Error>)
    ensures role == Admin ==> e == None
    ensures role != Admin ==>
              (e == None <==> RoomOf(rooms, c).Some? && RoomOf(rooms, c).value.motelOwnerId == Some(userId))
    ensures role != Admin && (RoomOf(rooms, c).None? || RoomOf(rooms, c).value.motelOwnerId.None?) ==>
              e == Some(Crash)
    ensures e.Some? ==> e == Some(Crash) || e == Some(Forbidden)
  {
    if role == Admin then None
    else match RoomOf(rooms, c)
      case None => Some(Crash)
      case Some(room) =>
        match room.motelOwnerId
        case None => Some(Crash)
        case Some(owner) => if owner != userId then Some(Forbidden) else None
  }

  /** No room of a valid database records a motel owner, so only an ADMIN
      gets past the check; anyone else crashes. */
  lemma {:induction false} OnlyAdminsPassWithoutMotelOwners(db: Database, c: Contract, userId: Id, role: Role)
    requires db.Valid()
    ensures EditCheck(db.rooms, c, userId, role) == None <==> role == Admin
    ensures role != Admin ==> EditCheck(db.rooms, c, userId, role) == Some(Crash)
  {
    if role != Admin && RoomOf(db.rooms, c).Some? {
      assert c.roomId.value in db.rooms;
    }
  }

  /** UpdateContractDto. `paymentCycle` is not a column of the entity, so
      the save drops it. */
  datatype UpdateContractDto = UpdateContractDto(
    startDate: Option<int>,
    endDate: Option<int>,
    deposit: Option<int>,
    paymentCycle: Option<int>,
    documentUrl: Option<string>)

  /** `Object.assign(contract, updateDto)`: supplied columns overwrite, the
      others, and the status, room, tenant, type and stored payment cycle,
      stay. */
  function ApplyUpdate(c: Contract, dto: UpdateContractDto): (u: Contract)
    ensures u.status == c.status && u.roomId == c.roomId && u.motelId == c.motelId
    ensures u.tenantId == c.tenantId && u.contractType == c.contractType
    ensures u.paymentCycleMonths == c.paymentCycleMonths && u.monthlyRent == c.monthlyRent
    ensures dto.(paymentCycle := None) == UpdateContractDto(None, None, None, None, None) ==> u == c
    ensures u.startDate == dto.startDate.GetOr(c.startDate) && u.endDate == dto.endDate.GetOr(c.endDate)
    ensures u.deposit == dto.deposit.GetOr(c.deposit)
    ensures dto.documentUrl.Some? ==> u.documentUrl == dto.documentUrl
    ensures dto.documentUrl.None? ==> u.documentUrl == c.documentUrl
    ensures u.(startDate := c.startDate, endDate := c.endDate, deposit := c.deposit, documentUrl := c.documentUrl) == c
  {
    c.(startDate := dto.startDate.GetOr(c.startDate),
       endDate := dto.endDate.GetOr(c.endDate),
       deposit := dto.deposit.GetOr(c.deposit),
       documentUrl := dto.documentUrl.OrElse(c.documentUrl))
  }

  /** Nothing orders the dates on update: a new start after the end is
      stored as given. */
  lemma UpdateMayReverseDates(c: Contract, start: int)
    requires start > c.endDate
    ensures var u := ApplyUpdate(c, UpdateContractDto(Some(start), None, None, None, None));
            u.startDate == start && u.endDate == c.endDate && u.startDate > u.endDate
  {
  }

  /** `update`: NotFound, then the edit check; otherwise the merged contract
      is stored. */
  method Update(db: Database, id: Id, userId: Id, role: Role, dto: UpdateContractDto)
    returns (r: Result<Contract>)
    requires db.Valid()
    modifies db`contracts
    ensures db.Valid()
    ensures id !in old(db.contracts) ==> r == Err(NotFound)
    ensures id in old(db.contracts) && EditCheck(db.rooms, old(db.contracts[id]), userId, role).Some? ==>
              r == Err(EditCheck(db.rooms, old(db.contracts[id]), userId, role).value)
    ensures r.Err? ==> db.contracts == old(db.contracts)
    ensures r.Ok? <==> id in old(db.contracts) && EditCheck(db.rooms, old(db.contracts[id]), userId, role).None?
    ensures r.Ok? ==> r.value == ApplyUpdate(old(db.contracts[id]), dto)
                      && db.contracts == old(db.contracts)[id := r.value]
  {
    if id !in db.contracts {
      return Err(NotFound);
    }
    var c := db.contracts[id];
    var e := EditCheck(db.rooms, c, userId, role);
    if e.Some? {
      return Err(e.value);
    }
    var u := ApplyUpdate(c, dto);
    db.contracts := db.contracts[id := u];
    return Ok(u);
  }

  /** `remove`: NotFound, then the edit check; an ADMIN removing a contract
      whose room is missing crashes on `contract.room.status`. Otherwise the
      room becomes VACANT, whatever else is booked on it, and the contract
      is deleted, whatever its status and bills. */
  method Remove(db: Database, id: Id, userId: Id, role: Role) returns (r: Result<()>)
    requires db.Valid()
    modifies db`rooms, db`contracts
    ensures db.Valid()
    ensures id !in old(db.contracts) ==> r == Err(NotFound)
    ensures id in old(db.contracts) && EditCheck(old(db.rooms), old(db.contracts[id]), userId, role).Some? ==>
              r == Err(EditCheck(old(db.rooms), old(db.contracts[id]), userId, role).value)
    ensures id in old(db.contracts) && RoomOf(old(db.rooms), old(db.contracts[id])).None? ==> r == Err(Crash)
    ensures r.Err? ==> db.rooms == old(db.rooms) && db.contracts == old(db.contracts)
    ensures r.Ok? <==> id in old(db.contracts)
                       && EditCheck(old(db.rooms), old(db.contracts[id]), userId, role).None?
                       && RoomOf(old(db.rooms), old(db.contracts[id])).Some?
    ensures r.Ok? ==> var rid := old(db.contracts[id]).roomId.value;
                      && db.contracts == old(db.contracts) - {id}
                      && db.rooms == old(db.rooms)[rid := old(db.rooms[rid]).(status := Vacant)]
  {
    if id !in db.contracts {
      return Err(NotFound);
    }
    var c := db.contracts[id];
    var e := EditCheck(db.rooms, c, userId, role);
    if e.Some? {
      return Err(e.value);
    }
    if RoomOf(db.rooms, c).None? {
      return Err(Crash);
    }
    var rid := c.roomId.value;
    db.rooms := db.rooms[rid := db.rooms[rid].(status := Vacant)];
    db.contracts := db.contracts - {id};
    return Ok(());
  }
}
