/** The `contracts` table (contract.entity.ts). */
module ContractEntity {
  import opened Common

  /** Only three statuses are declared; there is no pending state. */
  datatype ContractStatus = Active | Expired | Terminated

  /** `ContractType`: rent one room, or a whole motel. */
  datatype ContractType = RoomContract | MotelContract

  /** Dates are integers (instants); money and nullable floats are `int`
      and `Option<int>`. `roomId` and `motelId` are nullable, `tenantId`
      is not. */
  datatype Contract = Contract(
    contractType: ContractType,
    startDate: int,
    endDate: int,
    monthlyRent: Option<int>,
    deposit: int,
    paymentCycleMonths: int,
    paymentDay: Option<int>,
    depositMonths: int,
    electricityCostPerKwh: Option<int>,
    waterCostPerCubicMeter: Option<int>,
    internetCost: Option<int>,
    parkingCost: Option<int>,
    serviceFee: Option<int>,
    hasWifi: bool,
    hasParking: bool,
    maxOccupants: int,
    documentContent: Option<string>,
    documentUrl: Option<string>,
    status: ContractStatus,
    specialTerms: Option<string>,
    regulations: Option<string>,
    roomId: Option<Id>,
    motelId: Option<Id>,
    tenantId: Id)

  /** The object spread into `contractRepository.create` by
      ContractService.create: the fields of the direct-creation DTO together
      with those the request approval passes. A field absent here takes the
      column default. (`paymentCycle` of the DTO is not a column and is
      dropped by the ORM.) */
  datatype ContractInput = ContractInput(
    contractType: Option<ContractType>,
    roomId: Id,
    motelId: Option<Id>,
    tenantId: Id,
    startDate: int,
    endDate: int,
    monthlyRent: Option<int>,
    deposit: int,
    electricityCostPerKwh: Option<int>,
    waterCostPerCubicMeter: Option<int>,
    internetCost: Option<int>,
    parkingCost: Option<int>,
    serviceFee: Option<int>,
    specialTerms: Option<string>,
    documentUrl: Option<string>)

  /** The row built from an input: given fields are copied, the others take
      the entity defaults (type ROOM, status ACTIVE, payment cycle and deposit
      months 1, at most 4 occupants, no payment day, no document text). */
  function NewContract(input: ContractInput): (c: Contract)
    ensures c.status == Active
    ensures c.contractType == input.contractType.GetOr(RoomContract)
    ensures c.paymentCycleMonths == 1 && c.depositMonths == 1 && c.maxOccupants == 4
    ensures c.paymentDay == None && c.documentContent == None && c.regulations == None
    ensures !c.hasWifi && !c.hasParking
    ensures c.roomId == Some(input.roomId) && c.motelId == input.motelId
    ensures c.tenantId == input.tenantId
    ensures c.startDate == input.startDate && c.endDate == input.endDate
    ensures c.monthlyRent == input.monthlyRent && c.deposit == input.deposit
    ensures c.electricityCostPerKwh == input.electricityCostPerKwh
    ensures c.waterCostPerCubicMeter == input.waterCostPerCubicMeter
    ensures c.internetCost == input.internetCost && c.parkingCost == input.parkingCost
    ensures c.serviceFee == input.serviceFee && c.specialTerms == input.specialTerms
    ensures c.documentUrl == input.documentUrl
  {
    Contract(
      contractType := input.contractType.GetOr(RoomContract),
      startDate := input.startDate, endDate := input.endDate,
      monthlyRent := input.monthlyRent, deposit := input.deposit,
      paymentCycleMonths := 1, paymentDay := None, depositMonths := 1,
      electricityCostPerKwh := input.electricityCostPerKwh,
      waterCostPerCubicMeter := input.waterCostPerCubicMeter,
      internetCost := input.internetCost, parkingCost := input.parkingCost,
      serviceFee := input.serviceFee,
      hasWifi := false, hasParking := false, maxOccupants := 4,
      documentContent := None, documentUrl := input.documentUrl,
      status := Active,
      specialTerms := input.specialTerms, regulations := None,
      roomId := Some(input.roomId), motelId := input.motelId,
      tenantId := input.tenantId)
  }
}
