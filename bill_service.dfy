/** BillService (bill.service.ts): monthly utility bills of a contract.
    Meter readings are integers; rates, fees and amounts are integer money
    here (float columns in the source). */
module BillService {
  import opened Common
  import opened ContractEntity
  import opened BillEntity
  import opened Store

  /** CreateBillDto. */
  datatype CreateBillDto = CreateBillDto(
    contractId: Id,
    month: int,
    electricityStart: int,
    electricityEnd: int,
    waterStart: int,
    waterEnd: int,
    electricityRate: int,
    waterRate: int,
    otherFees: Option<int>)

  /** The amount due: electricity used times its rate, water used times its
      rate, plus the other fees (`|| 0`). */
  function Total(electricityStart: int, electricityEnd: int, waterStart: int, waterEnd: int,
                 electricityRate: int, waterRate: int, otherFees: int): int {
    (electricityEnd - electricityStart) * electricityRate + (waterEnd - waterStart) * waterRate + otherFees
  }

  /** The bill's stored total is the total of its own readings. */
  predicate TotalCurrent(b: Bill) {
    b.totalAmount == Total(b.electricityStart, b.electricityEnd, b.waterStart, b.waterEnd,
                           b.electricityRate, b.waterRate, b.otherFees)
  }

  /** The row `create` stores: the DTO's fields (absent other fees take the
      column default 0), the computed total, unpaid. */
  function NewBill(dto: CreateBillDto): (b: Bill)
    ensures TotalCurrent(b) && !b.isPaid && b.paidAt == None
    ensures b.contractId == dto.contractId && b.month == dto.month
    ensures b.electricityStart == dto.electricityStart && b.electricityEnd == dto.electricityEnd
    ensures b.waterStart == dto.waterStart && b.waterEnd == dto.waterEnd
    ensures b.electricityRate == dto.electricityRate && b.waterRate == dto.waterRate
    ensures b.otherFees == dto.otherFees.GetOr(0)
    ensures b.totalAmount == (dto.electricityEnd - dto.electricityStart) * dto.electricityRate
                             + (dto.waterEnd - dto.waterStart) * dto.waterRate + dto.otherFees.GetOr(0)
  {
    var other := if dto.otherFees.Some? && dto.otherFees.value != 0 then dto.otherFees.value else 0;
    Bill(dto.contractId, dto.month, dto.electricityStart, dto.electricityEnd, dto.waterStart, dto.waterEnd,
         dto.electricityRate, dto.waterRate, other,
         Total(dto.electricityStart, dto.electricityEnd, dto.waterStart, dto.waterEnd,
               dto.electricityRate, dto.waterRate, other),
         false, None)
  }

  /** With readings that do not go backwards and non-negative rates and
      fees, nothing is owed back; and the total is at least the fees. */
  lemma TotalNonNegative(electricityStart: int, electricityEnd: int, waterStart: int,
                         waterEnd: int, electricityRate: int, waterRate: int, otherFees: int)
    requires electricityStart <= electricityEnd && waterStart <= waterEnd
    requires electricityRate >= 0 && waterRate >= 0 && otherFees >= 0
    ensures Total(electricityStart, electricityEnd, waterStart, waterEnd, electricityRate, waterRate, otherFees)
            >= otherFees >= 0
  {
  }

  /** Using one more unit of electricity raises the total by the rate. */
  lemma {:induction false} OneMoreUnitCostsTheRate(electricityStart: int, electricityEnd: int, waterStart: int,
                                                   waterEnd: int, electricityRate: int, waterRate: int,
                                                   otherFees: int)
    ensures Total(electricityStart, electricityEnd + 1, waterStart, waterEnd, electricityRate, waterRate, otherFees)
            == Total(electricityStart, electricityEnd, waterStart, waterEnd, electricityRate, waterRate, otherFees)
               + electricityRate
  {
    assert (electricityEnd + 1 - electricityStart) * electricityRate
           == (electricityEnd - electricityStart) * electricityRate + electricityRate;
  }

  /** Absent fees and zero fees give the same bill. */
  lemma AbsentFeesAreZero(dto: CreateBillDto)
    ensures NewBill(dto.(otherFees := None)) == NewBill(dto.(otherFees := Some(0)))
  {
  }

  /** `create`: NotFound for an unknown contract; otherwise the new unpaid
      bill with its computed total. */
  method Create(db: Database, dto: CreateBillDto) returns (r: Result<Id>)
    requires db.Valid()
    modifies db`bills, db`nextId
    ensures db.Valid()
    ensures r.Err? <==> dto.contractId !in db.contracts
    ensures r.Err? ==> r.error == NotFound && db.bills == old(db.bills)
    ensures r.Ok? ==> r.value !in old(db.bills) && db.bills == old(db.bills)[r.value := NewBill(dto)]
  {
    if dto.contractId !in db.contracts {
      return Err(NotFound);
    }
    var id := db.NewId();
    db.bills := db.bills[id := NewBill(dto)];
    return Ok(id);
  }

  /** The rows `findAll` returns, from the table in its order: a TENANT
      gets the bills of the contracts they rent (a bill whose contract is
      gone has none), any other caller, or none, gets them all. */
  function FindAll(rows: seq<Bill>, contracts: map<Id, Contract>, userId: Id, role: Option<Role>): (shown: seq<Bill>)
    ensures role != Some(Tenant) ==> shown == rows
    ensures role == Some(Tenant) ==>
              forall b :: b in shown <==> b in rows && b.contractId in contracts
                                          && contracts[b.contractId].tenantId == userId
  {
    if role == Some(Tenant) then
      Filter(rows, (b: Bill) => b.contractId in contracts && contracts[b.contractId].tenantId == userId)
    else rows
  }

  /** `markPaid`: NotFound, else paid and stamped with `now`. */
  method MarkPaid(db: Database, id: Id, now: int) returns (r: Result<Bill>)
    requires db.Valid()
    modifies db`bills
    ensures db.Valid()
    ensures r.Err? <==> id !in old(db.bills)
    ensures r.Err? ==> r.error == NotFound && db.bills == old(db.bills)
    ensures r.Ok? ==> r.value == Paid(old(db.bills[id]), now) && db.bills == old(db.bills)[id := r.value]
  {
    if id !in db.bills {
      return Err(NotFound);
    }
    var b := Paid(db.bills[id], now);
    db.bills := db.bills[id := b];
    return Ok(b);
  }

  /** The bill after `markPaid` at `now`. */
  function Paid(b: Bill, now: int): (p: Bill)
    ensures p.isPaid && p.paidAt == Some(now)
    ensures TotalCurrent(b) ==> TotalCurrent(p)
  {
    b.(isPaid := true, paidAt := Some(now))
  }

  /** Paying twice keeps the bill paid; only the payment time moves. */
  lemma PayingTwiceStaysPaid(b: Bill, first: int, second: int)
    ensures Paid(Paid(b, first), second) == Paid(b, second)
  {
  }

  /** UpdateBillDto. */
  datatype UpdateBillDto = UpdateBillDto(
    electricityStart: Option<int>,
    electricityEnd: Option<int>,
    waterStart: Option<int>,
    waterEnd: Option<int>,
    electricityRate: Option<int>,
    waterRate: Option<int>,
    otherFees: Option<int>,
    isPaid: Option<bool>)

  /** `Object.assign(bill, dto)`: supplied fields overwrite; the total is
      not recomputed. */
  function ApplyUpdate(b: Bill, dto: UpdateBillDto): (u: Bill)
    ensures u.totalAmount == b.totalAmount && u.contractId == b.contractId && u.paidAt == b.paidAt
    ensures u.month == b.month
    ensures u.electricityStart == dto.electricityStart.GetOr(b.electricityStart)
    ensures u.electricityEnd == dto.electricityEnd.GetOr(b.electricityEnd)
    ensures u.waterStart == dto.waterStart.GetOr(b.waterStart) && u.waterEnd == dto.waterEnd.GetOr(b.waterEnd)
    ensures u.electricityRate == dto.electricityRate.GetOr(b.electricityRate)
    ensures u.waterRate == dto.waterRate.GetOr(b.waterRate)
    ensures u.otherFees == dto.otherFees.GetOr(b.otherFees) && u.isPaid == dto.isPaid.GetOr(b.isPaid)
    ensures u.(electricityStart := b.electricityStart, electricityEnd := b.electricityEnd,
               waterStart := b.waterStart, waterEnd := b.waterEnd, electricityRate := b.electricityRate,
               waterRate := b.waterRate, otherFees := b.otherFees, isPaid := b.isPaid) == b
  {
    b.(electricityStart := dto.electricityStart.GetOr(b.electricityStart),
       electricityEnd := dto.electricityEnd.GetOr(b.electricityEnd),
       waterStart := dto.waterStart.GetOr(b.waterStart),
       waterEnd := dto.waterEnd.GetOr(b.waterEnd),
       electricityRate := dto.electricityRate.GetOr(b.electricityRate),
       waterRate := dto.waterRate.GetOr(b.waterRate),
       otherFees := dto.otherFees.GetOr(b.otherFees),
       isPaid := dto.isPaid.GetOr(b.isPaid))
  }

  /** New readings with a non-zero rate leave the stored total stale. */
  lemma {:induction false} UpdateLeavesTotalStale(b: Bill, newEnd: int)
    requires TotalCurrent(b) && b.electricityRate != 0 && newEnd != b.electricityEnd
    ensures !TotalCurrent(ApplyUpdate(b, UpdateBillDto(None, Some(newEnd), None, None, None, None, None, None)))
  {
    var u := ApplyUpdate(b, UpdateBillDto(None, Some(newEnd), None, None, None, None, None, None));
    assert (newEnd - b.electricityStart) * b.electricityRate - (b.electricityEnd - b.electricityStart) * b.electricityRate
           == (newEnd - b.electricityEnd) * b.electricityRate;
  }

  /** `update`: NotFound, else the merged bill. The paid flag may be set
      or cleared without touching `paidAt`. */
  method Update(db: Database, id: Id, dto: UpdateBillDto) returns (r: Result<Bill>)
    requires db.Valid()
    modifies db`bills
    ensures db.Valid()
    ensures r.Err? <==> id !in old(db.bills)
    ensures r.Err? ==> r.error == NotFound && db.bills == old(db.bills)
    ensures r.Ok? ==> r.value == ApplyUpdate(old(db.bills[id]), dto) && db.bills == old(db.bills)[id := r.value]
  {
    if id !in db.bills {
      return Err(NotFound);
    }
    var b := ApplyUpdate(db.bills[id], dto);
    db.bills := db.bills[id := b];
    return Ok(b);
  }
}
