/** The remaining tables the core reads or writes, reduced to the columns
    the services touch. */

/** `users` (user.entity.ts). `email` is a unique column. */
module UserEntity {
  import opened Common

  /** `createdAt` is an instant. */
  datatype User = User(email: string, role: Role,
                       firstName: Option<string>, lastName: Option<string>,
                       createdAt: int)
}

/** `motels` (motel.entity.ts). */
module MotelEntity {
  import opened Common

  datatype AlleyType = Car | Motorbike | Walking

  datatype SecurityType = Camera | Guard | Fingerprint | NoSecurity

  /** The columns of `motels` the services read or write. The entity
      declares no `slug` column, so the slug the services compute for a
      motel is never stored. */
  datatype Motel = Motel(
    name: string,
    address: string,
    description: Option<string>,
    totalRooms: int,
    monthlyRent: Option<int>,
    latitude: Option<int>,
    longitude: Option<int>,
    alleyType: Option<AlleyType>,
    securityType: SecurityType,
    hasWifi: bool,
    hasParking: bool,
    hasElevator: bool,
    hasKitchen: bool,
    hasAirConditioner: bool,
    allowPets: bool,
    allowCooking: bool,
    ownerId: Id)
}

/** `bills` (bill.entity.ts): meter readings are integers, rates and
    amounts integer money, `month` and `paidAt` instants. */
module BillEntity {
  import opened Common

  datatype Bill = Bill(
    contractId: Id,
    month: int,
    electricityStart: int,
    electricityEnd: int,
    waterStart: int,
    waterEnd: int,
    electricityRate: int,
    waterRate: int,
    otherFees: int,
    totalAmount: int,
    isPaid: bool,
    paidAt: Option<int>)
}

/** `notifications` (notification.entity.ts). A null `toUserId` addresses
    no user in particular, a null `toRole` no role in particular. */
module NotificationEntity {
  import opened Common

  datatype Notification = Notification(
    title: string,
    message: string,
    toRole: Option<Role>,
    toUserId: Option<Id>,
    createdById: Option<Id>,
    isRead: bool)
}

/** `feedbacks` (feedback.entity.ts). */
module FeedbackEntity {
  import opened Common

  datatype FeedbackStatus = FeedbackPending | InProgress | Resolved

  datatype Feedback = Feedback(
    title: string,
    description: string,
    status: FeedbackStatus,
    images: Option<seq<string>>,
    roomId: Id,
    userId: Id)
}
