/** StatisticsService (statistics.service.ts): the dashboard figures. The
    rows each database query returns are inputs; the counting and the month
    bucketing the service does on them are modelled. Months are absolute
    month numbers (`year * 12 + monthIndex`); `monthOf` maps a stored
    instant to its month number in the server's time zone and `today` is
    the current month's number. */
module StatisticsService {
  import opened Common
  import opened UserEntity
  import opened MotelEntity
  import opened RoomEntity
  import opened ContractEntity
  import opened BillEntity

  /** One chart entry: a label, a value and a colour. */
  datatype Slice = Slice(name: string, value: int, color: string)

  /** One bucket of a monthly chart; the month label is left out, the
      month number stands for it. */
  datatype MonthTotal = MonthTotal(month: int, total: int)

  /** An amount attributed to a month. */
  datatype Entry = Entry(month: int, amount: int)

  /** Sum of the amounts of the entries of month `m`. */
  function SumInMonth(entries: seq<Entry>, m: int): int {
    if entries == [] then 0
    else
      var last := entries[|entries| - 1];
      SumInMonth(entries[..|entries| - 1], m) + (if last.month == m then last.amount else 0)
  }

  /** Sum of the amounts of the entries of months `lo` to `hi - 1`. */
  function SumInRange(entries: seq<Entry>, lo: int, hi: int): int {
    if entries == [] then 0
    else
      var last := entries[|entries| - 1];
      SumInRange(entries[..|entries| - 1], lo, hi) + (if lo <= last.month < hi then last.amount else 0)
  }

  /** The `n` monthly sums from month `first` on. */
  function Buckets(entries: seq<Entry>, first: int, n: nat): (b: seq<int>)
    ensures |b| == n
    ensures forall k :: 0 <= k < n ==> b[k] == SumInMonth(entries, first + k)
  {
    if n == 0 then [] else Buckets(entries, first, n - 1) + [SumInMonth(entries, first + n - 1)]
  }

  function SumSeq(s: seq<int>): int {
    if s == [] then 0 else SumSeq(s[..|s| - 1]) + s[|s| - 1]
  }

  /** The two loops of every monthly chart: `n` zeroed buckets from month
      `first`, then each entry added to the bucket of its month when there
      is one. */
  method MonthlyTotals(entries: seq<Entry>, first: int, n: nat) returns (totals: seq<int>)
    ensures totals == Buckets(entries, first, n)
  {
    totals := [];
    var i := 0;
    while i < n
      invariant 0 <= i <= n && |totals| == i
      invariant forall k :: 0 <= k < i ==> totals[k] == 0
    {
      totals := totals + [0];
      i := i + 1;
    }
    var j := 0;
    while j < |entries|
      invariant 0 <= j <= |entries| && |totals| == n
      invariant forall k :: 0 <= k < n ==> totals[k] == SumInMonth(entries[..j], first + k)
    {
      var idx := entries[j].month - first;
      if 0 <= idx < n {
        totals := totals[idx := totals[idx] + entries[j].amount];
      }
      assert entries[..j + 1][..j] == entries[..j];
      j := j + 1;
    }
    assert entries[..|entries|] == entries;
  }

  /** An entry lands in exactly the bucket of its month, and is ignored
      when its month is outside the window. */
  lemma {:induction false} OneEntryOneBucket(entries: seq<Entry>, e: Entry, first: int, n: nat)
    ensures (e.month < first || e.month >= first + n) ==> Buckets(entries + [e], first, n) == Buckets(entries, first, n)
    ensures first <= e.month < first + n ==>
              var b := Buckets(entries, first, n);
              Buckets(entries + [e], first, n) == b[e.month - first := b[e.month - first] + e.amount]
  {
    assert (entries + [e])[..|entries|] == entries;
  }

  /** Splitting a month range at its top month. */
  lemma {:induction false} RangeSplitsAtTop(entries: seq<Entry>, lo: int, hi: int)
    requires lo <= hi
    ensures SumInRange(entries, lo, hi + 1) == SumInRange(entries, lo, hi) + SumInMonth(entries, hi)
  {
    if entries != [] {
      RangeSplitsAtTop(entries[..|entries| - 1], lo, hi);
    }
  }

  /** The buckets together hold exactly the entries of the window. */
  lemma {:induction false} BucketsSumToWindow(entries: seq<Entry>, first: int, n: nat)
    ensures SumSeq(Buckets(entries, first, n)) == SumInRange(entries, first, first + n)
  {
    if n == 0 {
      EmptyRange(entries, first);
    } else {
      var b := Buckets(entries, first, n);
      assert b[..n - 1] == Buckets(entries, first, n - 1);
      BucketsSumToWindow(entries, first, n - 1);
      RangeSplitsAtTop(entries, first, first + n - 1);
    }
  }

  lemma {:induction false} EmptyRange(entries: seq<Entry>, m: int)
    ensures SumInRange(entries, m, m) == 0
  {
    if entries != [] {
      EmptyRange(entries[..|entries| - 1], m);
    }
  }

  /** Bills as amounts of their month. */
  function BillEntries(bills: seq<Bill>, monthOf: int -> int): (e: seq<Entry>)
    ensures |e| == |bills|
    ensures forall i :: 0 <= i < |bills| ==> e[i] == Entry(monthOf(bills[i].month), bills[i].totalAmount)
  {
    if bills == [] then []
    else
      var last := bills[|bills| - 1];
      BillEntries(bills[..|bills| - 1], monthOf) + [Entry(monthOf(last.month), last.totalAmount)]
  }

  /** Users as one sign-up in their month. */
  function SignupEntries(users: seq<User>, monthOf: int -> int): (e: seq<Entry>)
    ensures |e| == |users|
    ensures forall i :: 0 <= i < |users| ==> e[i] == Entry(monthOf(users[i].createdAt), 1)
  {
    if users == [] then []
    else SignupEntries(users[..|users| - 1], monthOf) + [Entry(monthOf(users[|users| - 1].createdAt), 1)]
  }

  /** The chart of `totals` from month `first` on. */
  method Chart(totals: seq<int>, first: int) returns (chart: seq<MonthTotal>)
    ensures |chart| == |totals|
    ensures forall k :: 0 <= k < |totals| ==> chart[k] == MonthTotal(first + k, totals[k])
  {
    chart := [];
    var i := 0;
    while i < |totals|
      invariant 0 <= i <= |totals| && |chart| == i
      invariant forall k :: 0 <= k < i ==> chart[k] == MonthTotal(first + k, totals[k])
    {
      chart := chart + [MonthTotal(first + i, totals[i])];
      i := i + 1;
    }
  }

  /** The rows the joins reach: contract of a bill, room and motel of a
      contract. */
  datatype Joins = Joins(contracts: map<Id, Contract>, rooms: map<Id, Room>, motels: map<Id, Motel>)

  /** `room.ownerId = :userId OR motel.ownerId = :userId` on a contract. */
  predicate OwnsContract(j: Joins, c: Contract, userId: Id) {
    || (c.roomId.Some? && c.roomId.value in j.rooms && j.rooms[c.roomId.value].ownerId == userId)
    || (c.motelId.Some? && c.motelId.value in j.motels && j.motels[c.motelId.value].ownerId == userId)
  }

  predicate OwnsBill(j: Joins, b: Bill, userId: Id) {
    b.contractId in j.contracts && OwnsContract(j, j.contracts[b.contractId], userId)
  }

  /** The landlord revenue query: paid, from the window's first month on,
      of the landlord's rooms or motels. */
  function LandlordWindow(j: Joins, userId: Id, today: int, monthOf: int -> int): Bill -> bool {
    (b: Bill) => b.isPaid && monthOf(b.month) >= today - 5 && OwnsBill(j, b, userId)
  }

  /** `getLandlordRevenue`: six months, oldest first and ending with the
      current one, each with the landlord's paid revenue of that month. */
  method LandlordRevenue(bills: seq<Bill>, j: Joins, userId: Id, today: int, monthOf: int -> int)
    returns (chart: seq<MonthTotal>)
    ensures |chart| == 6
    ensures forall k :: 0 <= k < 6 ==>
              chart[k] == MonthTotal(today - 5 + k,
                                     SumInMonth(BillEntries(Filter(bills, LandlordWindow(j, userId, today, monthOf)),
                                                            monthOf), today - 5 + k))
  {
    var rows := Filter(bills, LandlordWindow(j, userId, today, monthOf));
    var totals := MonthlyTotals(BillEntries(rows, monthOf), today - 5, 6);
    chart := Chart(totals, today - 5);
  }

  /** `getAdminRevenueChart`: twelve months ending with the current one;
      a paid bill `k` months old (0 to 11) adds to bucket `11 - k`. */
  method AdminRevenueChart(bills: seq<Bill>, today: int, monthOf: int -> int) returns (chart: seq<MonthTotal>)
    ensures |chart| == 12
    ensures forall k :: 0 <= k < 12 ==>
              chart[k] == MonthTotal(today - 11 + k,
                                     SumInMonth(BillEntries(Filter(bills, AdminWindow(today, monthOf)), monthOf),
                                                today - 11 + k))
  {
    var rows := Filter(bills, AdminWindow(today, monthOf));
    var totals := MonthlyTotals(BillEntries(rows, monthOf), today - 11, 12);
    chart := Chart(totals, today - 11);
  }

  /** The admin revenue chart query: paid, from the window's first month on. */
  function AdminWindow(today: int, monthOf: int -> int): Bill -> bool {
    (b: Bill) => b.isPaid && monthOf(b.month) >= today - 11
  }

  /** `getAdminUserGrowth`: twelve months ending with the current one, each
      with the number of users created in it. */
  method AdminUserGrowth(users: seq<User>, today: int, monthOf: int -> int) returns (chart: seq<MonthTotal>)
    ensures |chart| == 12
    ensures forall k :: 0 <= k < 12 ==>
              chart[k] == MonthTotal(today - 11 + k,
                                     SumInMonth(SignupEntries(Filter(users, (u: User) => monthOf(u.createdAt) >= today - 11),
                                                              monthOf), today - 11 + k))
  {
    var rows := Filter(users, (u: User) => monthOf(u.createdAt) >= today - 11);
    var totals := MonthlyTotals(SignupEntries(rows, monthOf), today - 11, 12);
    chart := Chart(totals, today - 11);
  }

  /** Sum of the bills' amounts. */
  function SumAmounts(bills: seq<Bill>): int {
    if bills == [] then 0 else SumAmounts(bills[..|bills| - 1]) + bills[|bills| - 1].totalAmount
  }

  /** The overview queries' date test `startOfMonth <= month <= endOfMonth`
      on instants. `endOfMonth` is `new Date(y, m + 1, 0)`: midnight at the
      start of the month's last day, not its end. */
  predicate InOverviewMonth(d: int, startOfMonth: int, endOfMonth: int) {
    startOfMonth <= d <= endOfMonth
  }

  /** How the clock's instants relate to `monthOf`: the instants of month
      `today` are those from `startOfMonth` up to `nextMonth` (the first
      instant of the next month), and `endOfMonth`, the last day's
      midnight, lies between the two. */
  ghost predicate MonthClock(monthOf: int -> int, today: int, startOfMonth: int, endOfMonth: int, nextMonth: int) {
    && startOfMonth <= endOfMonth < nextMonth
    && forall d :: monthOf(d) == today <==> startOfMonth <= d < nextMonth
  }

  /** The landlord overview's revenue query: paid, passing the date test,
      of the landlord's rooms or motels. */
  function LandlordThisMonth(j: Joins, userId: Id, startOfMonth: int, endOfMonth: int): Bill -> bool {
    (b: Bill) => b.isPaid && InOverviewMonth(b.month, startOfMonth, endOfMonth) && OwnsBill(j, b, userId)
  }

  /** What `getLandlordOverview` returns. */
  datatype LandlordOverview = LandlordOverview(totalRooms: nat, totalTenants: nat, monthlyRevenue: int)

  /** `getLandlordOverview`: the landlord's rooms, the ACTIVE contracts on
      their rooms or motels (reported again as the tenant count: one tenant
      per contract), and the paid revenue passing the date test, 0 when
      there is none. */
  function LandlordOverviewOf(rooms: seq<Room>, contracts: seq<Contract>, bills: seq<Bill>, j: Joins,
                              userId: Id, startOfMonth: int, endOfMonth: int): (o: LandlordOverview)
    ensures o.totalRooms == |RoomsOf(rooms, userId)| <= |rooms|
    ensures o.totalTenants == |Filter(contracts, (c: Contract) => c.status == Active && OwnsContract(j, c, userId))|
    ensures o.totalTenants <= |contracts|
    ensures o.monthlyRevenue == SumAmounts(Filter(bills, LandlordThisMonth(j, userId, startOfMonth, endOfMonth)))
  {
    var activeContracts := |Filter(contracts, (c: Contract) => c.status == Active && OwnsContract(j, c, userId))|;
    LandlordOverview(|RoomsOf(rooms, userId)|, activeContracts,
                     SumAmounts(Filter(bills, LandlordThisMonth(j, userId, startOfMonth, endOfMonth))))
  }

  /** What the last bill adds to each side: its amount to the overview
      when it passes the date test, to the chart's current bucket when it
      is in the window and of month `today`. Passing the date test implies
      the latter, and the converse holds unless it is dated after the last
      day's midnight. */
  lemma OverviewStep(bills: seq<Bill>, j: Joins, userId: Id, today: int, monthOf: int -> int,
                     startOfMonth: int, endOfMonth: int, nextMonth: int)
    requires MonthClock(monthOf, today, startOfMonth, endOfMonth, nextMonth)
    requires bills != []
    ensures var init, b := bills[..|bills| - 1], bills[|bills| - 1];
            var thisMonth := LandlordThisMonth(j, userId, startOfMonth, endOfMonth);
            var window := LandlordWindow(j, userId, today, monthOf);
            && (thisMonth(b) ==> window(b) && monthOf(b.month) == today)
            && (!(endOfMonth < b.month < nextMonth) && window(b) && monthOf(b.month) == today ==> thisMonth(b))
            && SumAmounts(Filter(bills, thisMonth))
               == SumAmounts(Filter(init, thisMonth)) + (if thisMonth(b) then b.totalAmount else 0)
            && SumInMonth(BillEntries(Filter(bills, window), monthOf), today)
               == SumInMonth(BillEntries(Filter(init, window), monthOf), today)
                  + (if window(b) && monthOf(b.month) == today then b.totalAmount else 0)
  {
    var init, b := bills[..|bills| - 1], bills[|bills| - 1];
    var thisMonth := LandlordThisMonth(j, userId, startOfMonth, endOfMonth);
    var window := LandlordWindow(j, userId, today, monthOf);
    assert monthOf(b.month) == today <==> startOfMonth <= b.month < nextMonth;
    FilterSnoc(bills, thisMonth);
    FilterSnoc(bills, window);
    if thisMonth(b) {
      SumAmountsSnoc(Filter(init, thisMonth), b);
    }
    if window(b) {
      EntriesSnoc(Filter(init, window), b, monthOf);
      SumInMonthSnoc(BillEntries(Filter(init, window), monthOf), Entry(monthOf(b.month), b.totalAmount), today);
    }
  }

  /** With no negative amounts, the overview's revenue is at most the last
      bucket of the landlord revenue chart: every bill that passes the date
      test is of month `today`. */
  lemma {:induction false} OverviewRevenueAtMostLastBucket(bills: seq<Bill>, j: Joins, userId: Id, today: int,
                                                            monthOf: int -> int, startOfMonth: int,
                                                            endOfMonth: int, nextMonth: int)
    requires MonthClock(monthOf, today, startOfMonth, endOfMonth, nextMonth)
    requires forall i :: 0 <= i < |bills| ==> bills[i].totalAmount >= 0
    ensures SumAmounts(Filter(bills, LandlordThisMonth(j, userId, startOfMonth, endOfMonth)))
            <= SumInMonth(BillEntries(Filter(bills, LandlordWindow(j, userId, today, monthOf)), monthOf), today)
  {
    if bills != [] {
      OverviewRevenueAtMostLastBucket(bills[..|bills| - 1], j, userId, today, monthOf,
                                      startOfMonth, endOfMonth, nextMonth);
      OverviewStep(bills, j, userId, today, monthOf, startOfMonth, endOfMonth, nextMonth);
    }
  }

  /** When no bill is dated after the last day's midnight, the overview's
      revenue is exactly the last bucket of the landlord revenue chart. */
  lemma {:induction false} OverviewRevenueIsLastBucket(bills: seq<Bill>, j: Joins, userId: Id, today: int,
                                                        monthOf: int -> int, startOfMonth: int,
                                                        endOfMonth: int, nextMonth: int)
    requires MonthClock(monthOf, today, startOfMonth, endOfMonth, nextMonth)
    requires forall i :: 0 <= i < |bills| ==> !(endOfMonth < bills[i].month < nextMonth)
    ensures SumAmounts(Filter(bills, LandlordThisMonth(j, userId, startOfMonth, endOfMonth)))
            == SumInMonth(BillEntries(Filter(bills, LandlordWindow(j, userId, today, monthOf)), monthOf), today)
  {
    if bills != [] {
      OverviewRevenueIsLastBucket(bills[..|bills| - 1], j, userId, today, monthOf,
                                  startOfMonth, endOfMonth, nextMonth);
      OverviewStep(bills, j, userId, today, monthOf, startOfMonth, endOfMonth, nextMonth);
    }
  }

  /** A paid bill of the landlord dated after the last day's midnight is in
      the chart's current bucket but not in the overview's revenue. */
  lemma {:induction false} LateLastDayBillIsMissed(b: Bill, j: Joins, userId: Id, today: int, monthOf: int -> int,
                                                    startOfMonth: int, endOfMonth: int, nextMonth: int)
    requires MonthClock(monthOf, today, startOfMonth, endOfMonth, nextMonth)
    requires b.isPaid && OwnsBill(j, b, userId) && endOfMonth < b.month < nextMonth
    ensures SumAmounts(Filter([b], LandlordThisMonth(j, userId, startOfMonth, endOfMonth))) == 0
    ensures SumInMonth(BillEntries(Filter([b], LandlordWindow(j, userId, today, monthOf)), monthOf), today)
            == b.totalAmount
  {
    OverviewStep([b], j, userId, today, monthOf, startOfMonth, endOfMonth, nextMonth);
    assert [b][..0] == [];
    assert monthOf(b.month) == today;
  }

  lemma FilterSnoc<T(!new)>(rows: seq<T>, keep: T -> bool)
    requires rows != []
    ensures Filter(rows, keep) == Filter(rows[..|rows| - 1], keep)
                                  + (if keep(rows[|rows| - 1]) then [rows[|rows| - 1]] else [])
  {
  }

  lemma SumAmountsSnoc(bills: seq<Bill>, b: Bill)
    ensures SumAmounts(bills + [b]) == SumAmounts(bills) + b.totalAmount
  {
    assert (bills + [b])[..|bills|] == bills;
  }

  lemma EntriesSnoc(bills: seq<Bill>, b: Bill, monthOf: int -> int)
    ensures BillEntries(bills + [b], monthOf) == BillEntries(bills, monthOf) + [Entry(monthOf(b.month), b.totalAmount)]
  {
    assert (bills + [b])[..|bills|] == bills;
  }

  lemma SumInMonthSnoc(entries: seq<Entry>, e: Entry, m: int)
    ensures SumInMonth(entries + [e], m) == SumInMonth(entries, m) + (if e.month == m then e.amount else 0)
  {
    assert (entries + [e])[..|entries|] == entries;
  }

  /** Number of rooms with status `s`. */
  function CountRooms(rooms: seq<Room>, s: RoomStatus): nat {
    if rooms == [] then 0
    else CountRooms(rooms[..|rooms| - 1], s) + (if rooms[|rooms| - 1].status == s then 1 else 0)
  }

  /** Every room has exactly one of the three statuses. */
  lemma {:induction false} RoomCountsPartition(rooms: seq<Room>)
    ensures CountRooms(rooms, Vacant) + CountRooms(rooms, Occupied) + CountRooms(rooms, Maintenance) == |rooms|
  {
    if rooms != [] {
      RoomCountsPartition(rooms[..|rooms| - 1]);
    }
  }

  /** Counting is filtering and taking the length. */
  lemma {:induction false} CountIsFilterLength(rooms: seq<Room>, s: RoomStatus)
    ensures CountRooms(rooms, s) == |Filter(rooms, (r: Room) => r.status == s)|
  {
    if rooms != [] {
      CountIsFilterLength(rooms[..|rooms| - 1], s);
    }
  }

  /** The rooms of landlord `userId`, in table order. */
  function RoomsOf(rooms: seq<Room>, userId: Id): seq<Room> {
    Filter(rooms, (r: Room) => r.ownerId == userId)
  }

  /** `getLandlordRoomStatus`: the landlord's rooms counted by status, in
      the order VACANT, OCCUPIED, MAINTENANCE; the counts add up to the
      landlord's room count. */
  method LandlordRoomStatus(rooms: seq<Room>, userId: Id) returns (slices: seq<Slice>)
    ensures var mine := RoomsOf(rooms, userId);
            slices == [Slice("Trống", CountRooms(mine, Vacant), "#10B981"),
                       Slice("Đã thuê", CountRooms(mine, Occupied), "#3B82F6"),
                       Slice("Bảo trì", CountRooms(mine, Maintenance), "#F59E0B")]
    ensures slices[0].value + slices[1].value + slices[2].value == |RoomsOf(rooms, userId)|
  {
    var mine := RoomsOf(rooms, userId);
    var vacant, occupied, maintenance := 0, 0, 0;
    var i := 0;
    while i < |mine|
      invariant 0 <= i <= |mine|
      invariant vacant == CountRooms(mine[..i], Vacant)
      invariant occupied == CountRooms(mine[..i], Occupied)
      invariant maintenance == CountRooms(mine[..i], Maintenance)
    {
      match mine[i].status {
        case Vacant => vacant := vacant + 1;
        case Occupied => occupied := occupied + 1;
        case Maintenance => maintenance := maintenance + 1;
      }
      assert mine[..i + 1][..i] == mine[..i];
      i := i + 1;
    }
    assert mine[..|mine|] == mine;
    RoomCountsPartition(mine);
    slices := [Slice("Trống", vacant, "#10B981"), Slice("Đã thuê", occupied, "#3B82F6"),
               Slice("Bảo trì", maintenance, "#F59E0B")];
  }

  /** `getAdminOccupancyRate`: all rooms by status, in the order OCCUPIED,
      VACANT, MAINTENANCE. */
  function AdminOccupancyRate(rooms: seq<Room>): (slices: seq<Slice>)
    ensures |slices| == 3
    ensures slices[0].name == "Đã thuê" && slices[0].color == "#3B82F6"
    ensures slices[1].name == "Trống" && slices[1].color == "#10B981"
    ensures slices[2].name == "Bảo trì" && slices[2].color == "#F59E0B"
    ensures slices[0].value == CountRooms(rooms, Occupied)
    ensures slices[1].value == CountRooms(rooms, Vacant)
    ensures slices[2].value == CountRooms(rooms, Maintenance)
    ensures slices[0].value + slices[1].value + slices[2].value == |rooms|
  {
    CountIsFilterLength(rooms, Occupied);
    CountIsFilterLength(rooms, Vacant);
    CountIsFilterLength(rooms, Maintenance);
    RoomCountsPartition(rooms);
    [Slice("Đã thuê", |Filter(rooms, (r: Room) => r.status == Occupied)|, "#3B82F6"),
     Slice("Trống", |Filter(rooms, (r: Room) => r.status == Vacant)|, "#10B981"),
     Slice("Bảo trì", |Filter(rooms, (r: Room) => r.status == Maintenance)|, "#F59E0B")]
  }

  /** Number of contracts with status `s`. */
  function CountContracts(contracts: seq<Contract>, s: ContractStatus): nat {
    if contracts == [] then 0
    else CountContracts(contracts[..|contracts| - 1], s) + (if contracts[|contracts| - 1].status == s then 1 else 0)
  }

  lemma {:induction false} ContractCountsPartition(contracts: seq<Contract>)
    ensures CountContracts(contracts, Active) + CountContracts(contracts, Terminated)
            + CountContracts(contracts, Expired) == |contracts|
  {
    if contracts != [] {
      ContractCountsPartition(contracts[..|contracts| - 1]);
    }
  }

  /** `getAdminContractStatus`: the contracts by status in the order ACTIVE,
      PENDING_TENANT, TERMINATED, EXPIRED. No contract can have the second
      status, which the entity does not declare, so its count is always 0
      and the other three add up to all contracts. */
  method AdminContractStatus(contracts: seq<Contract>) returns (slices: seq<Slice>)
    ensures slices == [Slice("Đang hoạt động", CountContracts(contracts, Active), "#10B981"),
                       Slice("Chờ duyệt", 0, "#F59E0B"),
                       Slice("Đã kết thúc", CountContracts(contracts, Terminated), "#EF4444"),
                       Slice("Hết hạn", CountContracts(contracts, Expired), "#6B7280")]
    ensures slices[0].value + slices[1].value + slices[2].value + slices[3].value == |contracts|
  {
    var active, pendingTenant, terminated, expired := 0, 0, 0, 0;
    var i := 0;
    while i < |contracts|
      invariant 0 <= i <= |contracts|
      invariant active == CountContracts(contracts[..i], Active)
      invariant terminated == CountContracts(contracts[..i], Terminated)
      invariant expired == CountContracts(contracts[..i], Expired)
      invariant pendingTenant == 0
    {
      match contracts[i].status {
        case Active => active := active + 1;
        case Terminated => terminated := terminated + 1;
        case Expired => expired := expired + 1;
      }
      assert contracts[..i + 1][..i] == contracts[..i];
      i := i + 1;
    }
    assert contracts[..|contracts|] == contracts;
    ContractCountsPartition(contracts);
    slices := [Slice("Đang hoạt động", active, "#10B981"), Slice("Chờ duyệt", pendingTenant, "#F59E0B"),
               Slice("Đã kết thúc", terminated, "#EF4444"), Slice("Hết hạn", expired, "#6B7280")];
  }

  /** What `getAdminOverview` returns. */
  datatype AdminOverview = AdminOverview(totalUsers: nat, totalMotels: nat, totalRooms: nat,
                                         totalContracts: nat, activeContracts: nat,
                                         totalRevenue: int, monthlyRevenue: int)

  /** `getAdminOverview`: table sizes, ACTIVE contracts, and the paid
      revenue overall and passing the date test (0 when there is none). */
  function AdminOverviewOf(users: seq<User>, motels: seq<Motel>, rooms: seq<Room>, contracts: seq<Contract>,
                           bills: seq<Bill>, startOfMonth: int, endOfMonth: int): (o: AdminOverview)
    ensures o.totalUsers == |users| && o.totalMotels == |motels| && o.totalRooms == |rooms|
    ensures o.totalContracts == |contracts| && o.activeContracts == CountContracts(contracts, Active)
    ensures o.activeContracts <= o.totalContracts
    ensures o.totalRevenue == SumAmounts(Filter(bills, IsPaid))
    ensures o.monthlyRevenue == SumAmounts(Filter(bills, PaidThisMonth(startOfMonth, endOfMonth)))
  {
    ContractCountsPartition(contracts);
    AdminOverview(|users|, |motels|, |rooms|, |contracts|, CountContracts(contracts, Active),
                  SumAmounts(Filter(bills, IsPaid)),
                  SumAmounts(Filter(bills, PaidThisMonth(startOfMonth, endOfMonth))))
  }

  /** The admin revenue queries: paid, and paid passing the date test. */
  predicate IsPaid(b: Bill) {
    b.isPaid
  }

  function PaidThisMonth(startOfMonth: int, endOfMonth: int): Bill -> bool {
    (b: Bill) => b.isPaid && InOverviewMonth(b.month, startOfMonth, endOfMonth)
  }

  /** With no negative amounts, this month's revenue never exceeds the
      revenue of all time. */
  lemma {:induction false} MonthlyAtMostTotal(bills: seq<Bill>, startOfMonth: int, endOfMonth: int)
    requires forall i :: 0 <= i < |bills| ==> bills[i].totalAmount >= 0
    ensures SumAmounts(Filter(bills, PaidThisMonth(startOfMonth, endOfMonth))) <= SumAmounts(Filter(bills, IsPaid))
  {
    if bills != [] {
      var init := bills[..|bills| - 1];
      var b := bills[|bills| - 1];
      MonthlyAtMostTotal(init, startOfMonth, endOfMonth);
      FilterSnoc(bills, PaidThisMonth(startOfMonth, endOfMonth));
      FilterSnoc(bills, IsPaid);
      if PaidThisMonth(startOfMonth, endOfMonth)(b) {
        SumAmountsSnoc(Filter(init, PaidThisMonth(startOfMonth, endOfMonth)), b);
      }
      if IsPaid(b) {
        SumAmountsSnoc(Filter(init, IsPaid), b);
      }
    }
  }
}
