/** End-to-end runs of the services on one database, as a client would call
    them, with what the whole run leaves behind. */
module Scenarios {
  import opened Common
  import opened RoomEntity
  import opened ContractEntity
  import opened ContractRequestEntity
  import opened Store
  import ContractService
  import ContractRequestService

  /** A landlord proposes their VACANT room to a user: `create` accepts
      and stores the PENDING landlord-initiated request, and the rooms are
      untouched. */
  method LandlordProposes(db: Database, landlordId: Id, roomId: Id, dto: ContractRequestService.CreateRequestDto)
    returns (requestId: Id)
    requires db.Valid()
    requires dto.requestType == Some(RoomContract) && dto.roomId == Some(roomId)
    requires roomId in db.rooms && db.rooms[roomId].status == Vacant && db.rooms[roomId].ownerId == landlordId
    requires dto.tenantId in db.users && dto.tenantId != landlordId && dto.startDate < dto.endDate
    modifies db`requests, db`notifications, db`nextId
    ensures db.Valid()
    ensures requestId in db.requests
    ensures db.requests[requestId] == ContractRequestService.Proposed(dto, landlordId, LandlordInitiated)
  {
    assert ContractRequestService.TargetLandlord(db.rooms, db.motels, dto) == Ok(landlordId);
    assert ContractRequestService.InitiatorFor(landlordId, landlordId, dto.tenantId) == Ok(LandlordInitiated);
    var created := ContractRequestService.Create(db, landlordId, Landlord, dto);
    assert created.Ok?;
    requestId := created.value;
  }

  /** The tenant of a PENDING landlord-initiated room request approves it
      while the room is not OCCUPIED: the request becomes APPROVED and is
      linked to a new ACTIVE contract built from it, and that room alone
      becomes OCCUPIED. */
  method TenantApproves(db: Database, requestId: Id, now: int) returns (contractId: Id)
    requires db.Valid()
    requires requestId in db.requests
    requires var req := db.requests[requestId];
             && req.status == Pending && req.initiatedBy == LandlordInitiated && req.requestType == RoomContract
             && req.roomId.Some? && req.roomId.value in db.rooms && db.rooms[req.roomId.value].status != Occupied
    modifies db`requests, db`rooms, db`contracts, db`notifications, db`nextId
    ensures db.Valid()
    ensures requestId in db.requests && db.requests[requestId].status == Approved
    ensures db.requests[requestId].contractId == Some(contractId)
    ensures contractId in db.contracts
    ensures db.contracts[contractId] == NewContract(ContractRequestService.ContractInputOf(old(db.requests[requestId])))
    ensures var rid := old(db.requests[requestId]).roomId.value;
            db.rooms == old(db.rooms)[rid := old(db.rooms[rid]).(status := Occupied)]
  {
    var req := db.requests[requestId];
    assert ContractRequestService.Gate(req, req.tenantId, Tenant, ContractRequestService.ApproveAction) == None;
    var approved := ContractRequestService.Approve(db, requestId, req.tenantId, Tenant, None, now);
    assert approved.Ok?;
    contractId := approved.value.contractId.value;
  }

  /** A landlord proposes their VACANT room to a tenant who approves: the
      request is APPROVED and linked to a new ACTIVE contract of that
      tenant, and the room is OCCUPIED. The room's own `tenantId` is not
      set by any of this, so the tenant's "my rooms" listing still misses
      the room. */
  method LandlordProposesTenantApproves(db: Database, landlordId: Id, tenantId: Id, roomId: Id,
                                        dto: ContractRequestService.CreateRequestDto, now: int)
    returns (requestId: Id, contractId: Id)
    requires db.Valid()
    requires dto.requestType == Some(RoomContract) && dto.roomId == Some(roomId) && dto.tenantId == tenantId
    requires roomId in db.rooms && db.rooms[roomId].status == Vacant && db.rooms[roomId].ownerId == landlordId
    requires tenantId in db.users && tenantId != landlordId && dto.startDate < dto.endDate
    modifies db`requests, db`rooms, db`contracts, db`notifications, db`nextId
    ensures db.Valid()
    ensures requestId in db.requests && db.requests[requestId].status == Approved
    ensures db.requests[requestId].contractId == Some(contractId)
    ensures contractId in db.contracts && db.contracts[contractId].status == Active
    ensures db.contracts[contractId].tenantId == tenantId && db.contracts[contractId].roomId == Some(roomId)
    ensures db.rooms == old(db.rooms)[roomId := old(db.rooms[roomId]).(status := Occupied)]
    ensures db.rooms[roomId].tenantId == old(db.rooms[roomId].tenantId)
  {
    requestId := LandlordProposes(db, landlordId, roomId, dto);
    ghost var req := db.requests[requestId];
    contractId := TenantApproves(db, requestId, now);
    assert db.contracts[contractId] == NewContract(ContractRequestService.ContractInputOf(req));
  }

  /** Direct contract creation books a room twice, and removing one of the
      two contracts marks the room VACANT while the other is still ACTIVE. */
  method DirectContractsDoubleBook(db: Database, first: ContractInput, second: ContractInput)
    returns (a: Id, b: Id)
    requires db.Valid()
    requires first.roomId == second.roomId && first.roomId in db.rooms
    modifies db`rooms, db`contracts, db`nextId
    ensures db.Valid()
    ensures a != b && b in db.contracts && a !in db.contracts
    ensures db.contracts[b].status == Active && db.contracts[b].roomId == Some(first.roomId)
    ensures first.roomId in db.rooms && db.rooms[first.roomId].status == Vacant
  {
    var one := ContractService.Create(db, first);
    a := one.value;
    var two := ContractService.Create(db, second);
    b := two.value;
    var removed := ContractService.Remove(db, a, 0, Admin);
    assert removed.Ok?;
  }
}
