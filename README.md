# e_motel back end — a Dafny model

This project models the core of the e_motel NestJS back end. In that rental
marketplace, landlords list motels and rooms and tenants rent them. A tenancy
starts as a **contract request** that either party may propose. The request is
PENDING until the other party approves it or rejects it, or until the proposer
cancels it. The proposer may also amend it meanwhile. Approval creates a binding
**contract** and marks the room OCCUPIED. Around this flow the model covers:

- the room service: create, edit, delete, change status, "my rooms", the vacant list, and the public search with its paging;
- the motel service: create, edit, delete, and the filtered, sorted, paged listing;
- the contract service, the bill service and the feedback service;
- the notification service: the notices the request flow sends, the inbox, marking a notice read;
- the dashboard statistics;
- the role guard that protects the routes.

The model is built like this:

- Every table is a map from key to row in one `Store.Database` object. The database's key generation is a counter (`NewId`).
- Each service operation that writes is a method on that object. Its `modifies` clause names the tables it may write. Its `ensures` clauses state the new contents of those tables, and every error path with the error it reports.
- The decisions inside an operation are functions with their own contracts. Examples are `Gate`, the request-flow permission and status check, `EditCheck` and `TargetLandlord`. The same goes for the merges that `Object.assign` performs (`ApplyUpdate`), and for the listings, which are filters over the table in its query order.
- Lemmas relate the operations. Their topics:
  - terminal request states are final;
  - approving and withdrawing exclude each other;
  - an amendment keeps a request well formed;
  - every match is on some page;
  - paging keeps the sort order;
  - the monthly buckets add up to the window;
  - the landlord overview's monthly revenue is the revenue chart's current month, except that the overview stops at midnight at the start of the month's last day, so a bill dated later that day is missed;
  - the status counts partition the rows;
  - updates are idempotent.
- `Store.Database.Valid` holds before and after every operation. It says keys are fresh, no room records a motel owner, and every stored request is well formed: its target is set, its dates are in order, and its response fields agree with its status.
- Two scenarios in `Scenarios` run whole flows on one database:
  - a proposal approved end to end;
  - two direct contracts on the same room, where removing one marks the room VACANT while the other is still ACTIVE.

Dates are integers (instants). Money and the nullable float columns are
integers and `Option<int>`. Statistics work on absolute month numbers
(`year * 12 + month`). Where the project's written description and its code
differ, the model follows the code:

- contracts have only the statuses ACTIVE, EXPIRED and TERMINATED;
- there is no terminate operation;
- creating a contract directly does not check that the room is free;
- the request flow never sets the room's `tenantId`, so a tenant's "my rooms" listing does not show a room they rent through a request;
- removing a contract does not look at its bills.

## Model

| member | source | states |
|---|---|---|
| RolesGuard.SomeMatches | src/modules/auth/guards/roles.guard.ts:31 | the scan finds a match exactly when the caller's role is in the required list |
| RolesGuard.CanActivate | src/modules/auth/guards/roles.guard.ts:13-32 | a route without role metadata is open; otherwise the caller passes iff their role is required |
| RolesGuard.EmptyRequiredDeniesEveryone | src/modules/auth/guards/roles.guard.ts:19-31 | an empty role list counts as present metadata and shuts the route for every role |
| RolesGuard.MoreRolesNeverDeny | src/modules/auth/guards/roles.guard.ts:31 | enlarging the required list never turns an allow into a deny |
| RoomEntity.NewRoom | src/modules/room/entities/room.entity.ts:34-130 | a new room is VACANT with no tenant; maxOccupancy is 2, cost columns 0, payment cycle and deposit months 1; the given fields are copied |
| ContractEntity.NewContract | src/modules/contract/entities/contract.entity.ts:19-123 | a new contract is ACTIVE, of type ROOM unless given; payment cycle 1, deposit months 1, at most 4 occupants; a given field is copied and the others take the column defaults |
| ContractRequestEntity.NewRequest | src/modules/contract/contract-request.service.ts:114-131 | a new request is PENDING with no response, no response time and no contract; type, initiator, parties, target, dates, terms and message are copied |
| Store.Database.NewId | src/modules/contract/entities/contract-request.entity.ts:30 | hands out a key used by no row of any table and keeps the invariant |
| ImageRows.ReplaceImages | src/modules/room/room.service.ts:184-193 | the owner's images become the new list; an empty list removes them; other owners' images are untouched |
| ImageRows.ReplaceImagesIdempotent | src/modules/motel/motel.service.ts:232-248 | replacing twice with the same list is replacing once |
| Paging.TotalPages | src/modules/room/room.service.ts:256 | `Math.ceil(total / limit)`: for a positive limit, the least page count whose pages hold all rows; a zero limit gives no finite number |
| Paging.PageOf | src/modules/room/room.service.ts:308 | page `p` holds at most `limit` rows, namely those from position `(p - 1) * limit` on, in order |
| Paging.PageOfKeepsOrder | src/modules/motel/motel.service.ts:148-153 | a page of sorted rows is sorted |
| Paging.RowOnItsPage | src/modules/room/room.service.ts:306-308 | row `i` of the matches is row `i % limit` of page `i / limit + 1`: paging loses no row |
| Paging.RowPageWithinTotal | src/modules/room/room.service.ts:325 | the page holding a row is among the reported `totalPages` |
| Paging.PagesCoverRows | src/modules/motel/motel.service.ts:150-162 | every page up to `totalPages` starts at an existing row; the page after the last starts past every row |
| Paging.ZeroPageFallbacksDiffer | src/modules/motel/motel.service.ts:81-83 | for every limit: `page || 1` turns page 0 into 1 and skips no row, the destructuring default keeps 0 and skips `-limit` rows; both give 1 for an absent page and agree on every non-zero page |
| RoomService.Create | src/modules/room/room.service.ts:76-103 | a bad image URL is a BadRequest with nothing written; otherwise a fresh VACANT room of the caller with the fresh slug, and its images |
| Common.FindById | src/modules/room/room.service.ts:114-125 | the stored row, or NotFound exactly when there is none; the room, motel (motel.service.ts:166-177) and contract (contract.service.ts:37-41) lookups are this one |
| RoomService.ApplyUpdate | src/modules/room/room.service.ts:175-181 | each supplied number, area, price, amenity list, status and tenant overwrites and each absent one keeps the stored value; a new slug only for a non-empty, changed number; every other column, the owner included, is unchanged |
| RoomService.EmptyUpdateChangesNothing | src/modules/room/room.service.ts:175-182 | an update supplying nothing leaves the room as it was |
| RoomService.UpdateIsIdempotent | src/modules/room/room.service.ts:177-181 | applying the same update twice equals applying it once, slug included |
| RoomService.Update | src/modules/room/room.service.ts:161-196 | NotFound; Forbidden unless owner or ADMIN; otherwise the room is saved, then a bad URL gives BadRequest with the images unchanged, else supplied images replace the old ones |
| RoomService.Remove | src/modules/room/room.service.ts:199-214 | NotFound; Forbidden unless owner or ADMIN; BadRequest while an ACTIVE contract is on the room; otherwise exactly that room is deleted |
| RoomService.UpdateStatus | src/modules/room/room.service.ts:365-369 | NotFound, or the room with the new status and nothing else changed; any status may follow any other |
| RoomService.FindMyRooms | src/modules/room/room.service.ts:340-362 | a TENANT gets exactly the rooms they rent, anyone else exactly the rooms they own, narrowed to the status if given |
| RoomService.FindVacant | src/modules/room/room.service.ts:331-337 | exactly the VACANT rooms |
| RoomService.RoomOrderOf | src/modules/room/room.service.ts:297-303 | price ascending iff `price_asc`, descending iff `price_desc`, else newest first |
| RoomService.Paginate | src/modules/room/room.service.ts:304-326 | page and limit default by `||` to 1 and 12; total counts all matches; data is that page of the matches; totalPages is finite |
| RoomService.EveryMatchIsOnSomePage | src/modules/room/room.service.ts:304-326 | every room matching the query is listed on some page between 1 and `totalPages` |
| RoomService.SearchPublic | src/modules/room/room.service.ts:216-328 | type MOTEL searches motels by the four amenity flags; anything else searches VACANT rooms by price bounds and amenities; either is a page of the matches |
| RoomService.SearchShowsOnlyVacantRooms | src/modules/room/room.service.ts:261-270 | a room search shows only rooms the vacant list would show |
| RoomService.PageKeepsOrder | src/modules/room/room.service.ts:297-308 | a page of rows sorted by a key stays sorted by it |
| RoomService.PriceOrderKept | src/modules/room/room.service.ts:297-300 | with a price sort, each page of room results is in that price order |
| ContractService.Create | src/modules/contract/contract.service.ts:18-31 | NotFound for an unknown room; otherwise the room becomes OCCUPIED whatever its status and whoever else is booked, and the new contract is stored |
| ContractService.RoomOf | src/modules/contract/contract.service.ts:37-41 | the loaded room relation: present iff the contract has a room id that names a room |
| ContractService.EditCheck | src/modules/contract/contract.service.ts:45-47 | an ADMIN passes; anyone else passes iff the room's motel owner is them, is Forbidden for another owner, and crashes when there is no room or motel owner |
| ContractService.OnlyAdminsPassWithoutMotelOwners | src/modules/contract/contract.service.ts:43-61 | on every valid database only an ADMIN passes the check to update or remove a contract; anyone else crashes |
| ContractService.ApplyUpdate | src/modules/contract/contract.service.ts:48-49 | each supplied start date, end date, deposit and document URL overwrites and each absent one keeps the stored value; every other column is unchanged; an empty update changes nothing |
| ContractService.UpdateMayReverseDates | src/modules/contract/contract.service.ts:43-50 | for every contract, an update supplying only a start date after its end date is merged as given, leaving the start after the end |
| ContractService.Update | src/modules/contract/contract.service.ts:43-50 | NotFound, then the edit check's error; otherwise exactly the merged contract is stored |
| ContractService.Remove | src/modules/contract/contract.service.ts:52-61 | NotFound, the edit check, a crash when the room is gone; otherwise the room becomes VACANT and the contract is deleted |
| ContractRequestService.TargetLandlord | src/modules/contract/contract-request.service.ts:49-85 | ROOM: BadRequest with no room id, NotFound for an unknown room, BadRequest for an OCCUPIED one, else the room's owner; MOTEL: likewise without the occupancy check; another type is a BadRequest |
| ContractRequestService.InitiatorFor | src/modules/contract/contract-request.service.ts:96-103 | the landlord initiates iff the caller is the landlord; otherwise the tenant initiates iff the caller is the tenant; otherwise Forbidden, whatever the role |
| ContractRequestService.InitiatorIsCaller | src/modules/contract/contract-request.service.ts:96-135 | the proposer is the caller; the notice goes to the other party; the two are the landlord and the tenant |
| ContractRequestService.Create | src/modules/contract/contract-request.service.ts:42-150 | the checks in order (target, tenant exists, initiator, end after start), an end date not after the start being a BadRequest once the others pass; success iff all pass, storing a PENDING request with no response and sending one notice to the other party |
| ContractRequestService.FindAllForUser | src/modules/contract/contract-request.service.ts:154-175 | an ADMIN sees every request, anyone else exactly the requests they are party to |
| ContractRequestService.FindOne | src/modules/contract/contract-request.service.ts:177-197 | no request is `null`, not an error; a party or an ADMIN sees it; anyone else is Forbidden |
| ContractRequestService.Gate | src/modules/contract/contract-request.service.ts:205-223 | Forbidden for a stranger, BadRequest unless PENDING, and on a PENDING request the only error is Forbidden; it passes iff PENDING and the caller is an ADMIN or the party entitled to the action (the addressee answers, the proposer withdraws or amends) |
| ContractRequestService.TerminalStatesAreFinal | src/modules/contract/contract-request.service.ts:210-212 | APPROVED, REJECTED and CANCELLED requests refuse every operation |
| ContractRequestService.AnswerAndWithdrawExclude | src/modules/contract/contract-request.service.ts:292-339 | when landlord and tenant differ, nobody but an ADMIN may both answer and withdraw the same request |
| ContractRequestService.SelfDealingIsApproved | src/modules/contract/contract-request.service.ts:96-103 | a landlord who names themself as tenant may approve their own proposal |
| ContractRequestService.ContractInputOf | src/modules/contract/contract-request.service.ts:241-256 | the contract asked for carries the request's room, motel, tenant, type, dates, rent, deposit, utility costs, parking cost, service fee and special terms, and no document URL |
| ContractRequestService.ApprovalError | src/modules/contract/contract-request.service.ts:225-238 | NotFound for a missing room, BadRequest for an OCCUPIED one on a ROOM request; no error iff the room exists and is free |
| ContractRequestService.Answered | src/modules/contract/contract-request.service.ts:258-262 | the new status, the response time and the contract link; an absent message keeps the stored one; nothing else changes |
| ContractRequestService.Approve | src/modules/contract/contract-request.service.ts:199-275 | NotFound, the gate, the room re-check; success iff they pass, with a new contract, the room OCCUPIED, the request APPROVED and linked, and one notice to the proposer; on error nothing changes |
| ContractRequestService.Reject | src/modules/contract/contract-request.service.ts:277-318 | NotFound, the gate; success iff they pass, with the request REJECTED and one notice to the proposer giving the reason |
| ContractRequestService.Cancel | src/modules/contract/contract-request.service.ts:320-353 | NotFound, the gate; success iff they pass, with the request CANCELLED and one notice to the addressee |
| ContractRequestService.ApplyUpdate | src/modules/contract/contract-request.service.ts:393 | each supplied date, term and message overwrites and each absent one keeps the stored value; status, parties, target, response and every other field are unchanged |
| ContractRequestService.DatesRejectedIffOutOfOrder | src/modules/contract/contract-request.service.ts:381-391 | on a well-formed request, the date check rejects exactly the amendments whose merged dates are out of order |
| ContractRequestService.UpdateKeepsWellFormed | src/modules/contract/contract-request.service.ts:381-394 | an accepted amendment keeps the request well formed |
| ContractRequestService.Update | src/modules/contract/contract-request.service.ts:355-395 | NotFound, the gate, the date check; success iff all pass, storing exactly the merged request |
| NotificationService.ToUser | src/modules/contract/contract-request.service.ts:143-147 | a notice addressed to one user by id, with no role and no e-mail |
| NotificationService.Create | src/modules/notification/notification.service.ts:17-39 | a non-empty e-mail reaches `userService.findByEmail`, which the user service (src/modules/user/user.service.ts:9-85) does not declare: a Crash with nothing stored, exactly then; otherwise one unread notice to the given id, with its role and creator, under a fresh key |
| NotificationService.MyNotifications | src/modules/notification/notification.service.ts:41-53 | exactly the unread notices addressed to the user, to their role, or to no role |
| NotificationService.DirectNoticeReachesEveryone | src/modules/notification/notification.service.ts:45-48 | an unread notice sent to one user by id and to no role is in every user's inbox |
| NotificationService.ReadNoticesNeverShow | src/modules/notification/notification.service.ts:45 | a read notice is in nobody's inbox |
| NotificationService.MarkRead | src/modules/notification/notification.service.ts:75 | the notice read, nothing else changed |
| NotificationService.MarkReadIdempotent | src/modules/notification/notification.service.ts:62-77 | marking twice is marking once |
| NotificationService.MarkAsRead | src/modules/notification/notification.service.ts:62-77 | NotFound; Forbidden for a notice addressed to someone else; otherwise exactly that notice becomes read |
| NotificationService.Remove | src/modules/notification/notification.service.ts:79-84 | NotFound when no row was deleted; anyone may delete any notice |
| NotificationService.Notify | src/modules/contract/contract-request.service.ts:268-272 | exactly one unread notice to the given user is added under a fresh key |
| BillService.NewBill | src/modules/bill/bill.service.ts:19-42 | the new bill is unpaid and carries the DTO's contract, month, readings and rates; absent other fees are 0; its total is electricity used times its rate plus water used times its rate plus the fees |
| BillService.TotalNonNegative | src/modules/bill/bill.service.ts:23-26 | with readings that do not go back and non-negative rates and fees, the total is at least the fees |
| BillService.OneMoreUnitCostsTheRate | src/modules/bill/bill.service.ts:23-26 | one more unit of electricity raises the total by the electricity rate |
| BillService.AbsentFeesAreZero | src/modules/bill/bill.service.ts:25 | absent and zero other fees give the same bill |
| BillService.Create | src/modules/bill/bill.service.ts:19-42 | NotFound iff the contract is unknown; otherwise the new bill under a fresh key |
| BillService.FindAll | src/modules/bill/bill.service.ts:44-56 | a TENANT gets exactly the bills of contracts they rent; anyone else gets every bill |
| BillService.MarkPaid | src/modules/bill/bill.service.ts:64-69 | NotFound, or the stored bill replaced by `Paid` of it at the time, nothing else changed |
| BillService.Paid | src/modules/bill/bill.service.ts:64-69 | a paid bill stamped with the time; a current total stays current |
| BillService.PayingTwiceStaysPaid | src/modules/bill/bill.service.ts:64-69 | paying twice equals paying once at the later time |
| BillService.ApplyUpdate | src/modules/bill/bill.service.ts:71-75 | each supplied reading, rate, fee and paid flag overwrites and each absent one keeps the stored value; month, contract, payment time and the stored total are unchanged |
| BillService.UpdateLeavesTotalStale | src/modules/bill/bill.service.ts:71-75 | a new electricity reading at a non-zero rate leaves the stored total out of date |
| BillService.Update | src/modules/bill/bill.service.ts:71-75 | NotFound iff the bill is unknown, else exactly the merged bill is stored |
| FeedbackService.MapImages | src/modules/feedback/feedback.service.ts:33-39 | same length and order; inline images become their upload URL and the others stay |
| FeedbackService.NoInlineImagesKept | src/modules/feedback/feedback.service.ts:33-39 | a list with no inline image is kept as it is |
| FeedbackService.MapImagesIdempotent | src/modules/feedback/feedback.service.ts:62-70 | when uploads return ordinary URLs, mapping twice is mapping once |
| FeedbackService.NewFeedback | src/modules/feedback/feedback.service.ts:23-41 | the DTO's title and description, PENDING, by the caller, on the room, with the mapped images (an empty list when none) |
| FeedbackService.Create | src/modules/feedback/feedback.service.ts:19-44 | NotFound iff the room is unknown; otherwise the new feedback under a fresh key |
| FeedbackService.RemoveImpliesUpdate | src/modules/feedback/feedback.service.ts:56-81 | whoever may remove may update; any LANDLORD may update a feedback but only its author or an ADMIN may remove it |
| FeedbackService.ApplyUpdate | src/modules/feedback/feedback.service.ts:62-73 | a supplied title, description and status overwrite and absent ones keep the stored value; supplied images are mapped; author, room and every other field are unchanged |
| FeedbackService.Update | src/modules/feedback/feedback.service.ts:56-75 | NotFound; Forbidden unless ADMIN, LANDLORD or author; otherwise exactly the merged feedback is stored |
| FeedbackService.Remove | src/modules/feedback/feedback.service.ts:77-81 | NotFound; Forbidden unless ADMIN or author; otherwise exactly that feedback is deleted |
| MotelService.NewMotel | src/modules/motel/motel.service.ts:52-78 | the given columns, owned by the caller; flags false, security NONE, no rent or alley type |
| MotelService.Create | src/modules/motel/motel.service.ts:52-78 | a bad image URL is a BadRequest with nothing written; otherwise the motel and its images under a fresh key |
| MotelService.ApplyUpdate | src/modules/motel/motel.service.ts:223-229 | each supplied name, address, description, room count, latitude and longitude overwrites and each absent one keeps the stored value; every other column, the owner included, is unchanged |
| MotelService.EmptyUpdateChangesNothing | src/modules/motel/motel.service.ts:223-229 | an update supplying no column, only images or a logo, leaves the motel as it was |
| MotelService.UpdateIsIdempotent | src/modules/motel/motel.service.ts:225-229 | applying the same update twice equals applying it once |
| MotelService.Update | src/modules/motel/motel.service.ts:211-251 | NotFound; Forbidden unless owner or ADMIN; the motel is saved first, then a bad URL gives BadRequest with its images unchanged, else supplied images replace them |
| MotelService.Remove | src/modules/motel/motel.service.ts:253-263 | NotFound; Forbidden unless owner or ADMIN; otherwise the motel and its images are deleted |
| MotelService.SortField | src/modules/motel/motel.service.ts:145-147 | always a whitelisted column: the requested one when listed, else createdAt |
| MotelService.SortFieldWhitelisted | src/modules/motel/motel.service.ts:145-148 | a requested column reaches the query iff it is whitelisted |
| MotelService.Ascending | src/modules/motel/motel.service.ts:148 | ascending iff the order is exactly `ASC` |
| MotelService.FindAll | src/modules/motel/motel.service.ts:80-164 | page and limit default to 1 and 10 only when absent; total counts the filter's matches; data is that page of them |
| MotelService.DefaultListing | src/modules/motel/motel.service.ts:81-96 | with no query: page 1 of 10, newest first, every motel counted |
| MotelService.EveryMatchIsListed | src/modules/motel/motel.service.ts:150-163 | with a positive limit, every matching motel is on some page between 1 and `totalPages` |
| StatisticsService.Buckets | src/modules/statistics/statistics.service.ts:45-58 | `n` buckets, bucket `k` the sum of month `first + k` |
| StatisticsService.MonthlyTotals | src/modules/statistics/statistics.service.ts:45-58 | the zeroed buckets plus the per-entry loop give exactly the monthly sums |
| StatisticsService.OneEntryOneBucket | src/modules/statistics/statistics.service.ts:51-58 | an entry adds to the bucket of its month only, and to none outside the window |
| StatisticsService.RangeSplitsAtTop | src/modules/statistics/statistics.service.ts:51-58 | the sum over months `lo..hi` is the sum over `lo..hi-1` plus month `hi` |
| StatisticsService.BucketsSumToWindow | src/modules/statistics/statistics.service.ts:45-58 | the buckets together hold exactly the entries of the window |
| StatisticsService.EmptyRange | src/modules/statistics/statistics.service.ts:51-58 | an empty month range sums to 0 |
| StatisticsService.BillEntries | src/modules/statistics/statistics.service.ts:51-58 | each bill as its amount in its month, one entry per bill in order |
| StatisticsService.SignupEntries | src/modules/statistics/statistics.service.ts:225-231 | each user as one sign-up in the month of creation, in order |
| StatisticsService.Chart | src/modules/statistics/statistics.service.ts:60-63 | one chart point per bucket, month `first + k` with bucket `k` |
| StatisticsService.LandlordRevenue | src/modules/statistics/statistics.service.ts:26-64 | six points ending with the current month, each the landlord's paid revenue of that month |
| StatisticsService.AdminRevenueChart | src/modules/statistics/statistics.service.ts:175-204 | twelve points ending with the current month, each the paid revenue of that month |
| StatisticsService.AdminUserGrowth | src/modules/statistics/statistics.service.ts:206-234 | twelve points ending with the current month, each the number of users created in it |
| StatisticsService.LandlordOverviewOf | src/modules/statistics/statistics.service.ts:90-133 | the landlord's rooms, the ACTIVE contracts on their rooms or motels (twice, as tenants), and the sum of their paid bills dated from the start of the month up to midnight at the start of its last day |
| StatisticsService.OverviewStep | src/modules/statistics/statistics.service.ts:109-126 | a bill passing the overview's date test is of the current month; one of the current month fails it only when dated after the last day's midnight; what one more bill adds to each side |
| StatisticsService.OverviewRevenueAtMostLastBucket | src/modules/statistics/statistics.service.ts:26-133 | with no negative amounts, the overview's monthly revenue is at most the last point of the landlord revenue chart |
| StatisticsService.OverviewRevenueIsLastBucket | src/modules/statistics/statistics.service.ts:26-133 | when no bill is dated after the last day's midnight, the overview's monthly revenue equals the last point of the landlord revenue chart |
| StatisticsService.LateLastDayBillIsMissed | src/modules/statistics/statistics.service.ts:109-120 | a paid bill of the landlord dated after the last day's midnight counts in the chart's current point but not in the overview's revenue |
| StatisticsService.RoomCountsPartition | src/modules/statistics/statistics.service.ts:66-88 | every room has exactly one of the three statuses, so the counts add up to the room count |
| StatisticsService.CountIsFilterLength | src/modules/statistics/statistics.service.ts:259-271 | counting a status is the length of the rows filtered by it |
| StatisticsService.LandlordRoomStatus | src/modules/statistics/statistics.service.ts:66-88 | the landlord's rooms counted VACANT, OCCUPIED, MAINTENANCE with their labels and colours, adding up to their room count |
| StatisticsService.AdminOccupancyRate | src/modules/statistics/statistics.service.ts:259-271 | all rooms counted OCCUPIED, VACANT, MAINTENANCE with their labels and colours, adding up to the room count |
| StatisticsService.ContractCountsPartition | src/modules/statistics/statistics.service.ts:236-257 | the three contract statuses partition the contracts |
| StatisticsService.AdminContractStatus | src/modules/statistics/statistics.service.ts:236-257 | counts for ACTIVE, PENDING_TENANT, TERMINATED, EXPIRED; PENDING_TENANT is always 0 and the four add up to all contracts |
| StatisticsService.AdminOverviewOf | src/modules/statistics/statistics.service.ts:137-173 | the table sizes, the ACTIVE contracts (at most all), the paid revenue overall, and the paid revenue dated from the start of the month up to the last day's midnight |
| StatisticsService.MonthlyAtMostTotal | src/modules/statistics/statistics.service.ts:137-173 | with no negative amounts, the revenue passing the date test never exceeds the revenue of all time |
| Scenarios.LandlordProposes | src/modules/contract/contract-request.service.ts:42-140 | a landlord's proposal for their own VACANT room to another user is accepted and stored as the PENDING landlord-initiated request built from the DTO |
| Scenarios.TenantApproves | src/modules/contract/contract-request.service.ts:199-275 | the tenant approving a PENDING landlord-initiated room request whose room is not OCCUPIED gets it APPROVED and linked to the new contract built from it; only that room changes, to OCCUPIED |
| Scenarios.LandlordProposesTenantApproves | src/modules/contract/contract-request.service.ts:42-275 | a landlord's proposal for a VACANT room, approved by the tenant: an APPROVED request linked to an ACTIVE contract for that tenant and room; the room OCCUPIED, its tenant unchanged |
| Scenarios.DirectContractsDoubleBook | src/modules/contract/contract.service.ts:18-61 | two direct contracts on one room both succeed; removing the first leaves the second ACTIVE on a room marked VACANT |

## Left out

- Controllers, the auth and user services, the face-verification, image-upload and mail modules, and the legacy copies of the entities in `src/entities/`: outside the core.
- Database queries, the network, the clock and randomness:
  - each query's result is an input: a map or a sequence in the order its ORDER BY gives;
  - `new Date()` is a `now` or `today` parameter;
  - the random slug suffix of a room is a `slug` parameter;
  - the image upload is an `upload` function parameter and `new URL(...)` an `isValidUrl` parameter.
- SQL text search (`LIKE` on name, address and description) is a `contains` parameter. Joins are reduced to key lookups in maps. ORM cascades and foreign-key constraints are not modelled.
- The room search's keyword filter is left out of `RoomService.SearchQuery`.
- `RoomService.Remove` deletes the room row only. The room's contracts, feedbacks and images, which the cascade on those relations would delete with it, are not modelled.
- Time zones and month arithmetic:
  - the month labels of the charts are replaced by month numbers;
  - `monthOf` (for `Date.getMonth`) is a parameter;
  - the overviews' `startOfMonth` and `endOfMonth` are instants given as parameters; `MonthClock` relates them, and the first instant of the next month, to `monthOf`.
- Float columns (rates, meter readings, money) are integers. Rounding is not modelled.
- Exception messages are not modelled, only the exception kind.
- An explicit JSON `null` in an update DTO is not modelled: an absent field and `null` are one `None`. `Object.assign` would copy a `null`, so clearing a room's tenant with `tenantId: null`, or setting a motel's description or a contract's document URL to `null`, is not modelled. The `ApplyUpdate` functions keep the stored value for `None`.
- The `findAll` of rooms, contracts, feedbacks and notifications, the `findOne` of bills and feedbacks, `findBySlug`, the motel service's `findByOwner`, the room service's slug backfill at start-up, and `searchPublic`'s lazy slug backfill of the motels and rooms it lists: plain reads or slug maintenance, with nothing to state beyond a lookup. The model's room results carry their stored slugs, and the search writes nothing.
- Approving a request that has no room id (a MOTEL request): the contract service would be handed a null room id. The outcome depends on how the ORM treats the null key. `ContractRequestService.Approve` reports `NotModelled` and changes nothing.
- ContractService.Create: the room lookup names a `motel` relation that the room entity does not declare, which the ORM may refuse at run time. The model treats it as a plain lookup by id.
- ContractService.EditCheck: `contract.room.motel.ownerId` is read, but the room entity declares no `motel` relation and `findOne` loads only the room. The model keeps that value as the room's `motelOwnerId`. No operation sets it, and `Store.Database.Valid` records that, so on every valid database a caller who is not an ADMIN crashes (`OnlyAdminsPassWithoutMotelOwners`).
- MotelService.FindAll: the `minPrice` and `maxPrice` filters are not modelled. They refer to a `rooms` alias that the query never joins.
- MotelService.FindAll: for a page or a limit below 1, `data` is `None`. A negative offset or a row count of 0 or less would reach the database, and what it returns is not modelled.
- The motel listing's filter DTO is not declared among the motel DTOs. Its fields are taken from the destructuring in `findAll`.
- MotelService.NewMotel / MotelService.ApplyUpdate: the motel entity declares no `slug` column, so the slug `create` and `update` compute is dropped by the save; the model's motel has no slug. `findBySlug` and the room search's motel slug backfill, which use it, are left out as above.
- The `status` of the room and feedback update DTOs is typed as a plain string. A value outside the entity's enum reaches the save and fails at the database; the model types it as the enum, so that failure is not modelled.
- The `logo` field of the motel DTOs, the `motelId` field of the room creation DTO and the `paymentCycle` field of the contract DTOs are not columns, so the save drops them.
- `ContractService.Create` does not model a contract without a room. The direct-creation DTO requires one.
