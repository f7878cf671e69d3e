/** ContractRequestService (contract-request.service.ts): the negotiation of
    a tenancy. A landlord or a tenant proposes terms (PENDING); the other
    party approves (a contract is created and the room becomes OCCUPIED) or
    rejects; the proposer cancels or amends. Only PENDING is ever left. */
module ContractRequestService {
  import opened Common
  import opened UserEntity
  import opened MotelEntity
  import opened RoomEntity
  import opened ContractEntity
  import opened ContractRequestEntity
  import opened NotificationEntity
  import opened Store
  import NotificationService
  import ContractService

  /** CreateContractRequestDto. `requestType` is `None` for a type string
      that is neither ROOM nor MOTEL. */
  datatype CreateRequestDto = CreateRequestDto(
    requestType: Option<ContractType>,
    roomId: Option<Id>,
    motelId: Option<Id>,
    tenantId: Id,
    startDate: int,
    endDate: int,
    terms: Terms,
    message: Option<string>)

  /** The target check of `create`: a ROOM request needs a known room that
      is not OCCUPIED (VACANT and MAINTENANCE both pass), a MOTEL request a
      known motel; the landlord is the target's owner. */
  function TargetLandlord(rooms: map<Id, Room>, motels: map<Id, Motel>, dto: CreateRequestDto): (r: Result<Id>)
    ensures dto.requestType == Some(RoomContract) ==>
              (r.Ok? <==> dto.roomId.Some? && dto.roomId.value in rooms
                          && rooms[dto.roomId.value].status != Occupied)
    ensures dto.requestType == Some(RoomContract) && r.Ok? ==> r.value == rooms[dto.roomId.value].ownerId
    ensures dto.requestType == Some(RoomContract) && dto.roomId.None? ==> r == Err(BadRequest)
    ensures dto.requestType == Some(RoomContract) && dto.roomId.Some? && dto.roomId.value !in rooms ==>
              r == Err(NotFound)
    ensures (dto.requestType == Some(RoomContract) && dto.roomId.Some? && dto.roomId.value in rooms
             && rooms[dto.roomId.value].status == Occupied) ==> r == Err(BadRequest)
    ensures dto.requestType == Some(MotelContract) ==>
              (r.Ok? <==> dto.motelId.Some? && dto.motelId.value in motels)
    ensures dto.requestType == Some(MotelContract) && r.Ok? ==> r.value == motels[dto.motelId.value].ownerId
    ensures dto.requestType == Some(MotelContract) && dto.motelId.None? ==> r == Err(BadRequest)
    ensures dto.requestType == Some(MotelContract) && dto.motelId.Some? && dto.motelId.value !in motels ==>
              r == Err(NotFound)
    ensures dto.requestType.None? ==> r == Err(BadRequest)
  {
    match dto.requestType
    case Some(RoomContract) =>
      if dto.roomId.None? then Err(BadRequest)
      else if dto.roomId.value !in rooms then Err(NotFound)
      else if rooms[dto.roomId.value].status == Occupied then Err(BadRequest)
      else Ok(rooms[dto.roomId.value].ownerId)
    case Some(MotelContract) =>
      if dto.motelId.None? then Err(BadRequest)
      else if dto.motelId.value !in motels then Err(NotFound)
      else Ok(motels[dto.motelId.value].ownerId)
    case None => Err(BadRequest)
  }

  /** Who initiates: the landlord if the caller is the landlord (checked
      first, so it wins when landlord and tenant coincide), else the tenant
      if the caller is the tenant, else nobody. The role plays no part. */
  function InitiatorFor(userId: Id, landlordId: Id, tenantId: Id): (r: Result<Initiator>)
    ensures r == Ok(LandlordInitiated) <==> userId == landlordId
    ensures r == Ok(TenantInitiated) <==> userId != landlordId && userId == tenantId
    ensures r.Err? <==> userId != landlordId && userId != tenantId
    ensures r.Err? ==> r.error == Forbidden
  {
    if userId == landlordId then Ok(LandlordInitiated)
    else if userId == tenantId then Ok(TenantInitiated)
    else Err(Forbidden)
  }

  /** The request `create` builds for an accepted DTO. */
  function Proposed(dto: CreateRequestDto, landlordId: Id, initiator: Initiator): ContractRequest
    requires dto.requestType.Some?
  {
    NewRequest(dto.requestType.value, initiator, dto.roomId, dto.motelId, landlordId, dto.tenantId,
               dto.startDate, dto.endDate, dto.terms, dto.message)
  }

  /** The proposer is the caller and the addressee the other party. */
  lemma {:induction false} InitiatorIsCaller(dto: CreateRequestDto, userId: Id, landlordId: Id)
    requires dto.requestType.Some? && InitiatorFor(userId, landlordId, dto.tenantId).Ok?
    ensures var r := Proposed(dto, landlordId, InitiatorFor(userId, landlordId, dto.tenantId).value);
            && InitiatorId(r) == userId
            && (landlordId != dto.tenantId ==> CounterPartyId(r) != userId)
            && {InitiatorId(r), CounterPartyId(r)} == {landlordId, dto.tenantId}
  {
    var r := Proposed(dto, landlordId, InitiatorFor(userId, landlordId, dto.tenantId).value);
    assert r.landlordId == landlordId && r.tenantId == dto.tenantId;
  }

  /** All of `create`'s checks pass. */
  predicate CreateAccepted(rooms: map<Id, Room>, motels: map<Id, Motel>, users: map<Id, User>,
                           userId: Id, dto: CreateRequestDto) {
    && TargetLandlord(rooms, motels, dto).Ok?
    && dto.tenantId in users
    && InitiatorFor(userId, TargetLandlord(rooms, motels, dto).value, dto.tenantId).Ok?
    && dto.startDate < dto.endDate
  }

  /** `${x}` of a nullable column. */
  function Shown(x: Option<string>): string {
    if x.Some? then x.value else "null"
  }

  /** The notice text of `create`, naming the room by number or the motel
      by name, and for a tenant's proposal the tenant by last and first
      name. */
  function NewRequestText(rooms: map<Id, Room>, motels: map<Id, Motel>, users: map<Id, User>,
                          dto: CreateRequestDto, initiator: Initiator): string
    requires TargetLandlord(rooms, motels, dto).Ok? && dto.tenantId in users
  {
    var target := if dto.requestType == Some(RoomContract) then "phòng " + rooms[dto.roomId.value].number
                  else "nhà trọ " + motels[dto.motelId.value].name;
    var tenant := users[dto.tenantId];
    if initiator == LandlordInitiated then
      "Bạn nhận được yêu cầu ký hợp đồng mới từ chủ trọ cho " + target
    else
      "Bạn nhận được yêu cầu thuê " + target + " từ " + Shown(tenant.lastName) + " " + Shown(tenant.firstName)
  }

  /** `create`: the checks in the code's order (target, tenant, initiator,
      dates); on success a PENDING request with no response is stored and
      exactly the other party is notified. */
  method Create(db: Database, userId: Id, role: Role, dto: CreateRequestDto) returns (r: Result<Id>)
    requires db.Valid()
    modifies db`requests, db`notifications, db`nextId
    ensures db.Valid()
    ensures TargetLandlord(db.rooms, db.motels, dto).Err? ==>
              r == Err(TargetLandlord(db.rooms, db.motels, dto).error)
    ensures TargetLandlord(db.rooms, db.motels, dto).Ok? && dto.tenantId !in db.users ==> r == Err(NotFound)
    ensures (TargetLandlord(db.rooms, db.motels, dto).Ok? && dto.tenantId in db.users
             && InitiatorFor(userId, TargetLandlord(db.rooms, db.motels, dto).value, dto.tenantId).Err?) ==>
              r == Err(Forbidden)
    ensures (TargetLandlord(db.rooms, db.motels, dto).Ok? && dto.tenantId in db.users
             && InitiatorFor(userId, TargetLandlord(db.rooms, db.motels, dto).value, dto.tenantId).Ok?
             && dto.endDate <= dto.startDate) ==>
              r == Err(BadRequest)
    ensures r.Ok? <==> CreateAccepted(db.rooms, db.motels, db.users, userId, dto)
    ensures r.Err? ==> db.requests == old(db.requests) && db.notifications == old(db.notifications)
    ensures r.Ok? ==>
              var landlordId := TargetLandlord(db.rooms, db.motels, dto).value;
              var initiator := InitiatorFor(userId, landlordId, dto.tenantId).value;
              var req := Proposed(dto, landlordId, initiator);
              && r.value !in old(db.requests)
              && db.requests == old(db.requests)[r.value := req]
              && req.status == Pending && req.contractId == None
              && NotificationService.AddedOne(old(db.notifications), db.notifications,
                   Notification("Yêu cầu hợp đồng mới",
                                NewRequestText(db.rooms, db.motels, db.users, dto, initiator),
                                None, Some(CounterPartyId(req)), Some(userId), false))
  {
    var target := TargetLandlord(db.rooms, db.motels, dto);
    if target.Err? {
      return Err(target.error);
    }
    var landlordId := target.value;
    if dto.tenantId !in db.users {
      return Err(NotFound);
    }
    var initiator := InitiatorFor(userId, landlordId, dto.tenantId);
    if initiator.Err? {
      return Err(initiator.error);
    }
    if dto.endDate <= dto.startDate {
      return Err(BadRequest);
    }
    var req := Proposed(dto, landlordId, initiator.value);
    assert WellFormed(req);
    var id := db.NewId();
    db.requests := db.requests[id := req];
    assert db.Valid();
    var targetUserId := if initiator.value == LandlordInitiated then dto.tenantId else landlordId;
    NotificationService.Notify(db, "Yêu cầu hợp đồng mới",
                               NewRequestText(db.rooms, db.motels, db.users, dto, initiator.value),
                               targetUserId, userId);
    return Ok(id);
  }

  /** A party to the request. */
  predicate IsParty(r: ContractRequest, userId: Id) {
    userId == r.landlordId || userId == r.tenantId
  }

  /** The permission of `findOne`, which every later operation goes
      through first. */
  predicate MayView(r: ContractRequest, userId: Id, role: Role) {
    role == Admin || IsParty(r, userId)
  }

  /** `findAllForUser` over the table in its order: everything for an
      ADMIN, the requests one is party to for anyone else. */
  function FindAllForUser(rows: seq<ContractRequest>, userId: Id, role: Role): (mine: seq<ContractRequest>)
    ensures role == Admin ==> mine == rows
    ensures role != Admin ==>
              forall x :: x in mine <==> x in rows && (x.landlordId == userId || x.tenantId == userId)
  {
    if role == Admin then rows else Filter(rows, (x: ContractRequest) => IsParty(x, userId))
  }

  /** `findOne`: no request is not an error (`null`); a stranger who is not
      an ADMIN is Forbidden. */
  function FindOne(requests: map<Id, ContractRequest>, id: Id, userId: Id, role: Role): (r: Result<Option<ContractRequest>>)
    ensures id !in requests ==> r == Ok(None)
    ensures id in requests && MayView(requests[id], userId, role) ==> r == Ok(Some(requests[id]))
    ensures id in requests && !MayView(requests[id], userId, role) ==> r == Err(Forbidden)
  {
    if id !in requests then Ok(None)
    else if role != Admin && requests[id].landlordId != userId && requests[id].tenantId != userId then Err(Forbidden)
    else Ok(Some(requests[id]))
  }

  /** The four operations on a stored request: the addressee answers, the
      proposer withdraws or amends. */
  datatype Action = ApproveAction | RejectAction | CancelAction | UpdateAction

  /** The party entitled to `act`. */
  function Actor(r: ContractRequest, act: Action): Id {
    if act == ApproveAction || act == RejectAction then CounterPartyId(r) else InitiatorId(r)
  }

  /** The checks every operation makes once the request is found, in the
      code's order: the `findOne` permission, the PENDING status, then the
      initiator rule (an ADMIN passes it). */
  function Gate(r: ContractRequest, userId: Id, role: Role, act: Action): (e: Option<Error>)
    ensures !MayView(r, userId, role) ==> e == Some(Forbidden)
    ensures MayView(r, userId, role) && r.status != Pending ==> e == Some(BadRequest)
    ensures r.status == Pending && e.Some? ==> e == Some(Forbidden)
    ensures e.None? <==> r.status == Pending && (role == Admin || userId == Actor(r, act))
    ensures e.Some? ==> e == Some(Forbidden) || e == Some(BadRequest)
  {
    if role != Admin && r.landlordId != userId && r.tenantId != userId then Some(Forbidden)
    else if r.status != Pending then Some(BadRequest)
    else if act == ApproveAction || act == RejectAction then
      if r.initiatedBy == LandlordInitiated then
        if r.tenantId != userId && role != Admin then Some(Forbidden) else None
      else
        if r.landlordId != userId && role != Admin then Some(Forbidden) else None
    else
      if r.initiatedBy == LandlordInitiated then
        if r.landlordId != userId && role != Admin then Some(Forbidden) else None
      else
        if r.tenantId != userId && role != Admin then Some(Forbidden) else None
  }

  /** APPROVED, REJECTED and CANCELLED are final: every operation fails. */
  lemma TerminalStatesAreFinal(r: ContractRequest, userId: Id, role: Role, act: Action)
    requires r.status != Pending
    ensures Gate(r, userId, role, act).Some?
  {
  }

  /** When landlord and tenant differ, a non-admin who may answer a request
      may not withdraw or amend it, and the other way round. */
  lemma {:induction false} AnswerAndWithdrawExclude(r: ContractRequest, userId: Id, role: Role,
                                                    answer: Action, withdraw: Action)
    requires role != Admin && r.landlordId != r.tenantId
    requires answer in {ApproveAction, RejectAction} && withdraw in {CancelAction, UpdateAction}
    ensures !(Gate(r, userId, role, answer).None? && Gate(r, userId, role, withdraw).None?)
  {
    assert Actor(r, answer) == CounterPartyId(r) && Actor(r, withdraw) == InitiatorId(r);
  }

  /** A landlord proposing to themself as tenant may also approve. */
  lemma SelfDealingIsApproved(r: ContractRequest)
    requires r.status == Pending && r.landlordId == r.tenantId
    ensures Gate(r, r.landlordId, Landlord, ApproveAction) == None
    ensures Gate(r, r.landlordId, Landlord, CancelAction) == None
  {
  }

  /** The contract the approval asks ContractService.create for. */
  function ContractInputOf(r: ContractRequest): (input: ContractInput)
    requires r.roomId.Some?
    ensures input.roomId == r.roomId.value && input.tenantId == r.tenantId
    ensures input.contractType == Some(r.requestType)
    ensures input.startDate == r.startDate && input.endDate == r.endDate
    ensures input.monthlyRent == Some(r.terms.monthlyRent) && input.deposit == r.terms.deposit
    ensures input.motelId == r.motelId && input.documentUrl == None
    ensures input.electricityCostPerKwh == r.terms.electricityCostPerKwh
    ensures input.waterCostPerCubicMeter == r.terms.waterCostPerCubicMeter
    ensures input.internetCost == r.terms.internetCost && input.parkingCost == r.terms.parkingCost
    ensures input.serviceFee == r.terms.serviceFee && input.specialTerms == r.terms.specialTerms
  {
    ContractInput(
      contractType := Some(r.requestType), roomId := r.roomId.value, motelId := r.motelId,
      tenantId := r.tenantId, startDate := r.startDate, endDate := r.endDate,
      monthlyRent := Some(r.terms.monthlyRent), deposit := r.terms.deposit,
      electricityCostPerKwh := r.terms.electricityCostPerKwh,
      waterCostPerCubicMeter := r.terms.waterCostPerCubicMeter,
      internetCost := r.terms.internetCost, parkingCost := r.terms.parkingCost,
      serviceFee := r.terms.serviceFee, specialTerms := r.terms.specialTerms,
      documentUrl := None)
  }

  /** What can still stop an approval that passed the gate: a ROOM request
      re-checks its room (unknown: NotFound, OCCUPIED: BadRequest); the
      contract creation then needs the room id to name a room. A request
      without a room id (a MOTEL request) is outside the model. */
  function ApprovalError(rooms: map<Id, Room>, r: ContractRequest): (e: Option<Error>)
    ensures e.None? <==> r.roomId.Some? && r.roomId.value in rooms
                         && (r.requestType == RoomContract ==> rooms[r.roomId.value].status != Occupied)
    ensures r.roomId.Some? && r.roomId.value !in rooms ==> e == Some(NotFound)
    ensures (r.requestType == RoomContract && r.roomId.Some? && r.roomId.value in rooms
             && rooms[r.roomId.value].status == Occupied) ==> e == Some(BadRequest)
    ensures r.roomId.None? ==> e == Some(NotModelled)
  {
    if r.requestType == RoomContract && r.roomId.Some? && r.roomId.value !in rooms then Some(NotFound)
    else if r.requestType == RoomContract && r.roomId.Some? && rooms[r.roomId.value].status == Occupied then Some(BadRequest)
    else if r.roomId.None? then Some(NotModelled)
    else if r.roomId.value !in rooms then Some(NotFound)
    else None
  }

  /** The request after it is answered. An absent response message leaves
      the column as it was, which for a PENDING request is null. */
  function Answered(r: ContractRequest, status: RequestStatus, responseMessage: Option<string>, now: int,
                    contractId: Option<Id>): (a: ContractRequest)
    ensures a.status == status && a.respondedAt == Some(now) && a.contractId == contractId
    ensures a.responseMessage == (if responseMessage.Some? then responseMessage else r.responseMessage)
    ensures a.(status := r.status, responseMessage := r.responseMessage, respondedAt := r.respondedAt,
               contractId := r.contractId) == r
  {
    r.(status := status,
       responseMessage := if responseMessage.Some? then responseMessage else r.responseMessage,
       respondedAt := Some(now), contractId := contractId)
  }

  /** `approve`: NotFound, the gate, the availability re-check; then the
      contract is created (room OCCUPIED), the request becomes APPROVED with
      the response time and the contract's id, and the proposer is told. */
  method Approve(db: Database, id: Id, userId: Id, role: Role, responseMessage: Option<string>, now: int)
    returns (r: Result<ContractRequest>)
    requires db.Valid()
    modifies db`requests, db`rooms, db`contracts, db`notifications, db`nextId
    ensures db.Valid()
    ensures id !in old(db.requests) ==> r == Err(NotFound)
    ensures id in old(db.requests) && Gate(old(db.requests[id]), userId, role, ApproveAction).Some? ==>
              r == Err(Gate(old(db.requests[id]), userId, role, ApproveAction).value)
    ensures (id in old(db.requests) && Gate(old(db.requests[id]), userId, role, ApproveAction).None?
             && ApprovalError(old(db.rooms), old(db.requests[id])).Some?) ==>
              r == Err(ApprovalError(old(db.rooms), old(db.requests[id])).value)
    ensures r.Ok? <==> id in old(db.requests) && Gate(old(db.requests[id]), userId, role, ApproveAction).None?
                       && ApprovalError(old(db.rooms), old(db.requests[id])).None?
    ensures r.Err? ==> db.requests == old(db.requests) && db.rooms == old(db.rooms)
                       && db.contracts == old(db.contracts) && db.notifications == old(db.notifications)
    ensures r.Ok? ==>
              var req := old(db.requests[id]);
              var rid := req.roomId.value;
              && old(db.requests[id]).status == Pending
              && r.value.contractId.Some? && r.value.contractId.value !in old(db.contracts)
              && db.contracts == old(db.contracts)[r.value.contractId.value := NewContract(ContractInputOf(req))]
              && db.rooms == old(db.rooms)[rid := old(db.rooms[rid]).(status := Occupied)]
              && r.value == Answered(req, Approved, responseMessage, now, r.value.contractId)
              && db.requests == old(db.requests)[id := r.value]
              && NotificationService.AddedOne(old(db.notifications), db.notifications,
                   Notification("Yêu cầu hợp đồng được chấp nhận",
                                "Yêu cầu hợp đồng của bạn đã được chấp nhận. Hợp đồng mới đã được tạo.",
                                None, Some(InitiatorId(req)), Some(userId), false))
  {
    if id !in db.requests {
      return Err(NotFound);
    }
    var req := db.requests[id];
    var e := Gate(req, userId, role, ApproveAction);
    if e.Some? {
      return Err(e.value);
    }
    var unavailable := ApprovalError(db.rooms, req);
    if unavailable.Some? {
      return Err(unavailable.value);
    }
    var created := ContractService.Create(db, ContractInputOf(req));
    var approved := Answered(req, Approved, responseMessage, now, Some(created.value));
    assert WellFormed(approved);
    db.requests := db.requests[id := approved];
    assert db.Valid();
    NotificationService.Notify(db, "Yêu cầu hợp đồng được chấp nhận",
                               "Yêu cầu hợp đồng của bạn đã được chấp nhận. Hợp đồng mới đã được tạo.",
                               InitiatorId(req), userId);
    return Ok(approved);
  }

  /** `${responseMessage}` of an optional string. */
  function Reason(responseMessage: Option<string>): string {
    if responseMessage.Some? then responseMessage.value else "undefined"
  }

  /** `reject`: NotFound, the gate; then REJECTED with the response time,
      and the proposer is told the reason. */
  method Reject(db: Database, id: Id, userId: Id, role: Role, responseMessage: Option<string>, now: int)
    returns (r: Result<ContractRequest>)
    requires db.Valid()
    modifies db`requests, db`notifications, db`nextId
    ensures db.Valid()
    ensures id !in old(db.requests) ==> r == Err(NotFound)
    ensures id in old(db.requests) && Gate(old(db.requests[id]), userId, role, RejectAction).Some? ==>
              r == Err(Gate(old(db.requests[id]), userId, role, RejectAction).value)
    ensures r.Ok? <==> id in old(db.requests) && Gate(old(db.requests[id]), userId, role, RejectAction).None?
    ensures r.Err? ==> db.requests == old(db.requests) && db.notifications == old(db.notifications)
    ensures r.Ok? ==>
              var req := old(db.requests[id]);
              && req.status == Pending
              && r.value == Answered(req, Rejected, responseMessage, now, None)
              && db.requests == old(db.requests)[id := r.value]
              && NotificationService.AddedOne(old(db.notifications), db.notifications,
                   Notification("Yêu cầu hợp đồng bị từ chối",
                                "Yêu cầu hợp đồng của bạn đã bị từ chối. Lý do: " + Reason(responseMessage),
                                None, Some(InitiatorId(req)), Some(userId), false))
  {
    if id !in db.requests {
      return Err(NotFound);
    }
    var req := db.requests[id];
    var e := Gate(req, userId, role, RejectAction);
    if e.Some? {
      return Err(e.value);
    }
    var rejected := Answered(req, Rejected, responseMessage, now, None);
    db.requests := db.requests[id := rejected];
    NotificationService.Notify(db, "Yêu cầu hợp đồng bị từ chối",
                               "Yêu cầu hợp đồng của bạn đã bị từ chối. Lý do: " + Reason(responseMessage),
                               InitiatorId(req), userId);
    return Ok(rejected);
  }

  /** `cancel`: NotFound, the gate; then CANCELLED (no response time) and
      the addressee is told. */
  method Cancel(db: Database, id: Id, userId: Id, role: Role) returns (r: Result<ContractRequest>)
    requires db.Valid()
    modifies db`requests, db`notifications, db`nextId
    ensures db.Valid()
    ensures id !in old(db.requests) ==> r == Err(NotFound)
    ensures id in old(db.requests) && Gate(old(db.requests[id]), userId, role, CancelAction).Some? ==>
              r == Err(Gate(old(db.requests[id]), userId, role, CancelAction).value)
    ensures r.Ok? <==> id in old(db.requests) && Gate(old(db.requests[id]), userId, role, CancelAction).None?
    ensures r.Err? ==> db.requests == old(db.requests) && db.notifications == old(db.notifications)
    ensures r.Ok? ==>
              var req := old(db.requests[id]);
              && req.status == Pending
              && r.value == req.(status := Cancelled)
              && db.requests == old(db.requests)[id := r.value]
              && NotificationService.AddedOne(old(db.notifications), db.notifications,
                   Notification("Yêu cầu hợp đồng đã bị hủy", "Yêu cầu hợp đồng đã bị hủy bởi người gửi.",
                                None, Some(CounterPartyId(req)), Some(userId), false))
  {
    if id !in db.requests {
      return Err(NotFound);
    }
    var req := db.requests[id];
    var e := Gate(req, userId, role, CancelAction);
    if e.Some? {
      return Err(e.value);
    }
    var cancelled := req.(status := Cancelled);
    db.requests := db.requests[id := cancelled];
    NotificationService.Notify(db, "Yêu cầu hợp đồng đã bị hủy", "Yêu cầu hợp đồng đã bị hủy bởi người gửi.",
                               CounterPartyId(req), userId);
    return Ok(cancelled);
  }

  /** UpdateContractRequestDto: the dates, the terms and the message, each
      optional. */
  datatype UpdateRequestDto = UpdateRequestDto(
    startDate: Option<int>,
    endDate: Option<int>,
    monthlyRent: Option<int>,
    deposit: Option<int>,
    electricityCostPerKwh: Option<int>,
    waterCostPerCubicMeter: Option<int>,
    internetCost: Option<int>,
    parkingCost: Option<int>,
    serviceFee: Option<int>,
    specialTerms: Option<string>,
    message: Option<string>)

  /** `Object.assign(request, updateDto)`: supplied fields overwrite; the
      status, the parties, the target and the response stay. */
  function ApplyUpdate(r: ContractRequest, dto: UpdateRequestDto): (u: ContractRequest)
    ensures u.status == r.status && u.initiatedBy == r.initiatedBy && u.requestType == r.requestType
    ensures u.landlordId == r.landlordId && u.tenantId == r.tenantId
    ensures u.roomId == r.roomId && u.motelId == r.motelId
    ensures u.responseMessage == r.responseMessage && u.respondedAt == r.respondedAt
    ensures u.contractId == r.contractId
    ensures u.startDate == dto.startDate.GetOr(r.startDate) && u.endDate == dto.endDate.GetOr(r.endDate)
    ensures dto.message.Some? ==> u.message == dto.message
    ensures dto.message.None? ==> u.message == r.message
    ensures u.terms.monthlyRent == dto.monthlyRent.GetOr(r.terms.monthlyRent)
    ensures u.terms.deposit == dto.deposit.GetOr(r.terms.deposit)
    ensures u.terms.electricityCostPerKwh == dto.electricityCostPerKwh.OrElse(r.terms.electricityCostPerKwh)
    ensures u.terms.waterCostPerCubicMeter == dto.waterCostPerCubicMeter.OrElse(r.terms.waterCostPerCubicMeter)
    ensures u.terms.internetCost == dto.internetCost.OrElse(r.terms.internetCost)
    ensures u.terms.parkingCost == dto.parkingCost.OrElse(r.terms.parkingCost)
    ensures u.terms.serviceFee == dto.serviceFee.OrElse(r.terms.serviceFee)
    ensures u.terms.specialTerms == dto.specialTerms.OrElse(r.terms.specialTerms)
    ensures u.(startDate := r.startDate, endDate := r.endDate, terms := r.terms, message := r.message) == r
  {
    r.(startDate := dto.startDate.GetOr(r.startDate),
       endDate := dto.endDate.GetOr(r.endDate),
       terms := r.terms.(monthlyRent := dto.monthlyRent.GetOr(r.terms.monthlyRent),
                         deposit := dto.deposit.GetOr(r.terms.deposit),
                         electricityCostPerKwh := dto.electricityCostPerKwh.OrElse(r.terms.electricityCostPerKwh),
                         waterCostPerCubicMeter := dto.waterCostPerCubicMeter.OrElse(r.terms.waterCostPerCubicMeter),
                         internetCost := dto.internetCost.OrElse(r.terms.internetCost),
                         parkingCost := dto.parkingCost.OrElse(r.terms.parkingCost),
                         serviceFee := dto.serviceFee.OrElse(r.terms.serviceFee),
                         specialTerms := dto.specialTerms.OrElse(r.terms.specialTerms)),
       message := dto.message.OrElse(r.message))
  }

  /** The date check of `update`, made only when a date is supplied: the
      merged end (new, else old) must be after the merged start. */
  predicate DatesRejected(r: ContractRequest, dto: UpdateRequestDto) {
    (dto.startDate.Some? || dto.endDate.Some?) && dto.endDate.GetOr(r.endDate) <= dto.startDate.GetOr(r.startDate)
  }

  /** On a well-formed request the check is exactly "the merged dates are
      out of order", supplied or not. */
  lemma DatesRejectedIffOutOfOrder(r: ContractRequest, dto: UpdateRequestDto)
    requires WellFormed(r)
    ensures DatesRejected(r, dto) <==> ApplyUpdate(r, dto).endDate <= ApplyUpdate(r, dto).startDate
  {
  }

  /** An accepted amendment keeps the request well formed. */
  lemma {:induction false} UpdateKeepsWellFormed(r: ContractRequest, dto: UpdateRequestDto)
    requires WellFormed(r) && !DatesRejected(r, dto)
    ensures WellFormed(ApplyUpdate(r, dto))
  {
    DatesRejectedIffOutOfOrder(r, dto);
  }

  /** `update`: NotFound, the gate, the date check; then the supplied fields
      overwrite. */
  method Update(db: Database, id: Id, userId: Id, role: Role, dto: UpdateRequestDto)
    returns (r: Result<ContractRequest>)
    requires db.Valid()
    modifies db`requests
    ensures db.Valid()
    ensures id !in old(db.requests) ==> r == Err(NotFound)
    ensures id in old(db.requests) && Gate(old(db.requests[id]), userId, role, UpdateAction).Some? ==>
              r == Err(Gate(old(db.requests[id]), userId, role, UpdateAction).value)
    ensures (id in old(db.requests) && Gate(old(db.requests[id]), userId, role, UpdateAction).None?
             && DatesRejected(old(db.requests[id]), dto)) ==> r == Err(BadRequest)
    ensures r.Ok? <==> id in old(db.requests) && Gate(old(db.requests[id]), userId, role, UpdateAction).None?
                       && !DatesRejected(old(db.requests[id]), dto)
    ensures r.Err? ==> db.requests == old(db.requests)
    ensures r.Ok? ==> old(db.requests[id]).status == Pending
                      && r.value == ApplyUpdate(old(db.requests[id]), dto)
                      && db.requests == old(db.requests)[id := r.value]
  {
    if id !in db.requests {
      return Err(NotFound);
    }
    var req := db.requests[id];
    var e := Gate(req, userId, role, UpdateAction);
    if e.Some? {
      return Err(e.value);
    }
    if dto.startDate.Some? || dto.endDate.Some? {
      var startDate := dto.startDate.GetOr(req.startDate);
      var endDate := dto.endDate.GetOr(req.endDate);
      if endDate <= startDate {
        return Err(BadRequest);
      }
    }
    UpdateKeepsWellFormed(req, dto);
    var updated := ApplyUpdate(req, dto);
    db.requests := db.requests[id := updated];
    return Ok(updated);
  }
}
