/** The database the services share, as one in-memory object: one map per
    table, keyed by primary key, and the counter that stands for the
    database's id generation. Every service operation is a method that takes
    this object and names in its `modifies` clause the tables it may write. */
module Store {
  import opened Common
  import opened UserEntity
  import opened MotelEntity
  import opened RoomEntity
  import opened ContractEntity
  import opened ContractRequestEntity
  import opened BillEntity
  import opened NotificationEntity
  import opened FeedbackEntity

  /** Every key of `m` is below `n`. */
  predicate KeysBelow<V>(m: map<Id, V>, n: Id) {
    forall k :: k in m ==> k < n
  }

  /** Every stored request is well formed. */
  ghost predicate AllWellFormed(requests: map<Id, ContractRequest>) {
    forall k :: k in requests ==> WellFormed(requests[k])
  }

  /** No room records the owner of its motel: the room entity has no
      `motel` relation, and no operation sets `motelOwnerId`. */
  predicate NoMotelOwners(rooms: map<Id, Room>) {
    forall k :: k in rooms ==> rooms[k].motelOwnerId.None?
  }

  class Database {
    var users: map<Id, User>
    var motels: map<Id, Motel>
    var rooms: map<Id, Room>
    /** Image rows, as the list of URLs attached to each room or motel. */
    var roomImages: map<Id, seq<string>>
    var motelImages: map<Id, seq<string>>
    var requests: map<Id, ContractRequest>
    var contracts: map<Id, Contract>
    var bills: map<Id, Bill>
    var notifications: map<Id, Notification>
    var feedbacks: map<Id, Feedback>
    var nextId: Id

    /** Generated keys (and the owners of image rows) are below the counter,
        so the next key is fresh; every stored contract request is well
        formed; and no room records a motel owner, since nothing sets one. */
    ghost predicate Valid()
      reads this
    {
      && KeysBelow(motels, nextId) && KeysBelow(rooms, nextId)
      && KeysBelow(roomImages, nextId) && KeysBelow(motelImages, nextId)
      && KeysBelow(requests, nextId) && KeysBelow(contracts, nextId)
      && KeysBelow(bills, nextId) && KeysBelow(notifications, nextId)
      && KeysBelow(feedbacks, nextId)
      && AllWellFormed(requests)
      && NoMotelOwners(rooms)
    }

    /** A database with the given users and nothing else. */
    constructor (users: map<Id, User>)
      ensures Valid()
      ensures this.users == users && motels == map[] && rooms == map[]
      ensures roomImages == map[] && motelImages == map[]
      ensures requests == map[] && contracts == map[] && bills == map[]
      ensures notifications == map[] && feedbacks == map[]
    {
      this.users := users;
      motels, rooms := map[], map[];
      roomImages, motelImages := map[], map[];
      requests, contracts, bills := map[], map[], map[];
      notifications, feedbacks := map[], map[];
      nextId := 0;
    }

    /** A key used by no row of any generated table. */
    method NewId() returns (id: Id)
      requires Valid()
      modifies this`nextId
      ensures Valid()
      ensures id == old(nextId) && nextId == id + 1
      ensures id !in motels && id !in rooms && id !in requests && id !in contracts
      ensures id !in roomImages && id !in motelImages
      ensures id !in bills && id !in notifications && id !in feedbacks
    {
      id := nextId;
      nextId := nextId + 1;
    }
  }
}
