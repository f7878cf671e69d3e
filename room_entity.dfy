/** The `rooms` table (room.entity.ts): the columns the services read or
    write, with the defaults the entity declares. */
module RoomEntity {
  import opened Common

  datatype RoomStatus = Vacant | Occupied | Maintenance

  /** Nullable float columns are `Option<int>`; money is an integer amount.
      `motelOwnerId` stands for `room.motel.ownerId`, which contract.service.ts
      reads although the entity declares no `motel` relation: it is `None`
      for every room this model creates, and no operation sets it. */
  datatype Room = Room(
    number: string,
    slug: string,
    area: int,
    price: int,
    status: RoomStatus,
    hasAirConditioner: bool,
    hasWifi: bool,
    hasKitchen: bool,
    maxOccupancy: int,
    electricityCostPerKwh: Option<int>,
    waterCostPerCubicMeter: Option<int>,
    internetCost: Option<int>,
    parkingCost: Option<int>,
    serviceFee: Option<int>,
    airConditionerCount: int,
    fanCount: int,
    waterHeaterCount: int,
    lightBulbCount: int,
    paymentCycleMonths: Option<int>,
    depositMonths: Option<int>,
    amenities: seq<string>,
    ownerId: Id,
    tenantId: Option<Id>,
    motelOwnerId: Option<Id>)

  /** The row `roomRepository.create` builds from the fields a caller gives:
      every other column takes the entity's default. */
  function NewRoom(number: string, slug: string, area: int, price: int,
                   amenities: seq<string>, ownerId: Id): (r: Room)
    ensures r.status == Vacant && r.tenantId == None && r.ownerId == ownerId
    ensures r.maxOccupancy == 2
    ensures !r.hasAirConditioner && !r.hasWifi && !r.hasKitchen
    ensures r.electricityCostPerKwh == r.waterCostPerCubicMeter == r.internetCost
            == r.parkingCost == r.serviceFee == Some(0)
    ensures r.airConditionerCount == r.fanCount == r.waterHeaterCount == r.lightBulbCount == 0
    ensures r.paymentCycleMonths == r.depositMonths == Some(1)
    ensures r.number == number && r.slug == slug && r.area == area && r.price == price
    ensures r.amenities == amenities && r.motelOwnerId == None
  {
    Room(number := number, slug := slug, area := area, price := price,
         status := Vacant,
         hasAirConditioner := false, hasWifi := false, hasKitchen := false,
         maxOccupancy := 2,
         electricityCostPerKwh := Some(0), waterCostPerCubicMeter := Some(0),
         internetCost := Some(0), parkingCost := Some(0), serviceFee := Some(0),
         airConditionerCount := 0, fanCount := 0, waterHeaterCount := 0,
         lightBulbCount := 0,
         paymentCycleMonths := Some(1), depositMonths := Some(1),
         amenities := amenities, ownerId := ownerId, tenantId := None,
         motelOwnerId := None)
  }
}
