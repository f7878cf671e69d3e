/** The `contract_requests` table (contract-request.entity.ts): a proposed
    tenancy before it is binding. */
module ContractRequestEntity {
  import opened Common
  import opened ContractEntity

  datatype RequestStatus = Pending | Approved | Rejected | Cancelled

  /** Who created the request; the other party holds the right to answer. */
  datatype Initiator = LandlordInitiated | TenantInitiated

  /** The proposed financial terms; the optional ones are nullable columns. */
  datatype Terms = Terms(
    monthlyRent: int,
    deposit: int,
    electricityCostPerKwh: Option<int>,
    waterCostPerCubicMeter: Option<int>,
    internetCost: Option<int>,
    parkingCost: Option<int>,
    serviceFee: Option<int>,
    specialTerms: Option<string>)

  /** `initiatedBy` has no default and is never null; `roomId`, `motelId`,
      `message`, `responseMessage`, `respondedAt` and `contractId` are
      nullable. */
  datatype ContractRequest = ContractRequest(
    requestType: ContractType,
    initiatedBy: Initiator,
    status: RequestStatus,
    roomId: Option<Id>,
    motelId: Option<Id>,
    landlordId: Id,
    tenantId: Id,
    startDate: int,
    endDate: int,
    terms: Terms,
    message: Option<string>,
    responseMessage: Option<string>,
    respondedAt: Option<int>,
    contractId: Option<Id>)

  /** The row `contractRequestRepository.create` builds in ContractRequestService.create:
      status PENDING (also the column default) and no response yet. */
  function NewRequest(requestType: ContractType, initiatedBy: Initiator,
                      roomId: Option<Id>, motelId: Option<Id>,
                      landlordId: Id, tenantId: Id, startDate: int, endDate: int,
                      terms: Terms, message: Option<string>): (r: ContractRequest)
    ensures r.status == Pending
    ensures r.responseMessage == None && r.respondedAt == None && r.contractId == None
    ensures r.requestType == requestType && r.initiatedBy == initiatedBy
    ensures r.roomId == roomId && r.motelId == motelId
    ensures r.landlordId == landlordId && r.tenantId == tenantId
    ensures r.startDate == startDate && r.endDate == endDate
    ensures r.terms == terms && r.message == message
  {
    ContractRequest(requestType, initiatedBy, Pending, roomId, motelId,
                    landlordId, tenantId, startDate, endDate, terms, message,
                    None, None, None)
  }

  /** The party who created the request. */
  function InitiatorId(r: ContractRequest): Id {
    if r.initiatedBy == LandlordInitiated then r.landlordId else r.tenantId
  }

  /** The party the request is addressed to. */
  function CounterPartyId(r: ContractRequest): Id {
    if r.initiatedBy == LandlordInitiated then r.tenantId else r.landlordId
  }

  /** What every stored request satisfies, whichever operations produced
      it: the target its type needs is set, the dates are in order, and the
      response fields agree with the status (only an approval links a
      contract; cancelling stamps no response time). */
  ghost predicate WellFormed(r: ContractRequest) {
    && (r.requestType == RoomContract ==> r.roomId.Some?)
    && (r.requestType == MotelContract ==> r.motelId.Some?)
    && r.startDate < r.endDate
    && (r.contractId.Some? <==> r.status == Approved)
    && (r.respondedAt.Some? <==> r.status in {Approved, Rejected})
    && (r.status in {Pending, Cancelled} ==> r.responseMessage == None)
  }
}
