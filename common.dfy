/** Shared vocabulary of the rental back end: identifiers, optional values,
    the user roles, the exceptions the services throw and an order-preserving
    filter used by every `find…` that narrows a list of rows. */
module Common {

  /** Primary keys. The database generates UUIDs; the model uses naturals
      handed out by a counter (see Store.Database.NewId). */
  type Id = nat

  datatype Option<T> = None | Some(value: T) {
    /** The value, or `default` when absent (`x ?? default`). */
    function GetOr(default: T): T {
      if Some? then value else default
    }

    /** This value when present, else `fallback` (`Object.assign` of an
        optional column). */
    function OrElse(fallback: Option<T>): Option<T> {
      if Some? then this else fallback
    }
  }

  /** `UserRole` of user.entity.ts. */
  datatype Role = Admin | Landlord | Tenant

  /** The exceptions the services raise. `Crash` is the JavaScript TypeError
      that dereferencing an undefined relation, or calling a method the
      callee does not declare, raises (an HTTP 500);
      `NotModelled` marks the one path whose outcome depends on how the ORM
      treats a null key, which this model does not decide. */
  datatype Error = NotFound | Forbidden | BadRequest | Crash | NotModelled

  datatype Result<T> = Ok(value: T) | Err(error: Error)

  /** JavaScript truthiness of an optional string: absent and "" are falsy. */
  predicate Truthy(s: Option<string>) {
    s.Some? && s.value != ""
  }

  /** The slug rule of the room `update`: a truthy new number that differs
      from the stored one takes `newSlug`, otherwise the stored slug
      stays. */
  function RenewedSlug(stored: string, storedName: string, name: Option<string>, newSlug: string): string {
    if Truthy(name) && name.value != storedName then newSlug else stored
  }

  /** The `findOne` of the room, motel and contract services: a lookup by
      primary key that turns a missing row into NotFound. */
  function FindById<V>(table: map<Id, V>, id: Id): (r: Result<V>)
    ensures r.Ok? <==> id in table
    ensures r.Ok? ==> r.value == table[id]
    ensures r.Err? ==> r.error == NotFound
  {
    if id in table then Ok(table[id]) else Err(NotFound)
  }

  /** The "owner or ADMIN" rule the room, motel and contract services share:
      `userRole !== UserRole.ADMIN && owner !== userId` throws Forbidden. */
  predicate OwnerOrAdmin(ownerId: Id, userId: Id, role: Role) {
    role == Admin || ownerId == userId
  }

  /** `rows.filter(keep)`: the rows that satisfy `keep`, in their order. */
  function Filter<T(!new)>(rows: seq<T>, keep: T -> bool): (kept: seq<T>)
    ensures |kept| <= |rows|
    ensures forall x :: x in kept <==> x in rows && keep(x)
  {
    if rows == [] then []
    else
      var front := Filter(rows[..|rows| - 1], keep);
      var last := rows[|rows| - 1];
      assert rows == rows[..|rows| - 1] + [last];
      if keep(last) then front + [last] else front
  }

  /** Keeping everything keeps the list as it is. */
  lemma {:induction false} FilterAll<T(!new)>(rows: seq<T>, keep: T -> bool)
    requires forall x :: x in rows ==> keep(x)
    ensures Filter(rows, keep) == rows
  {
    if rows != [] {
      assert rows == rows[..|rows| - 1] + [rows[|rows| - 1]];
      FilterAll(rows[..|rows| - 1], keep);
    }
  }

  /** `rows` ordered by `key`, smallest first. */
  ghost predicate SortedBy<T>(rows: seq<T>, key: T -> int) {
    forall i, j :: 0 <= i < j < |rows| ==> key(rows[i]) <= key(rows[j])
  }

  /** Filtering keeps the order of the rows it keeps. */
  lemma {:induction false} FilterKeepsOrder<T(!new)>(rows: seq<T>, keep: T -> bool, key: T -> int)
    requires SortedBy(rows, key)
    ensures SortedBy(Filter(rows, keep), key)
  {
    if rows != [] {
      var init := rows[..|rows| - 1];
      var last := rows[|rows| - 1];
      assert SortedBy(init, key) by {
        forall i, j | 0 <= i < j < |init| ensures key(init[i]) <= key(init[j]) {
          assert init[i] == rows[i] && init[j] == rows[j];
        }
      }
      FilterKeepsOrder(init, keep, key);
      var front := Filter(init, keep);
      if keep(last) {
        forall k | 0 <= k < |front| ensures key(front[k]) <= key(last) {
          assert front[k] in init;
          var i :| 0 <= i < |init| && init[i] == front[k];
          assert rows[i] == front[k];
        }
        assert Filter(rows, keep) == front + [last];
      } else {
        assert Filter(rows, keep) == front;
      }
    }
  }
}
