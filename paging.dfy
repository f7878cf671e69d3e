/** The pagination arithmetic the room search and the motel listing share:
    `skip((page - 1) * limit).take(limit)` and `Math.ceil(total / limit)`. */
module Paging {
  import opened Common

  /** Rows skipped before page `page` (pages count from 1): none are
      skipped backwards from page 1 on. */
  function Skip(page: int, limit: int): (s: int)
    ensures page >= 1 && limit >= 0 ==> s >= 0
  {
    (page - 1) * limit
  }

  /** `Math.ceil(total / limit)` when it is a finite number: `None` stands
      for the `Infinity` or `NaN` that a zero limit gives. For a positive
      limit it is the least number of pages of `limit` rows that hold
      `total` rows. */
  function TotalPages(total: nat, limit: int): (pages: Option<int>)
    ensures limit == 0 <==> pages.None?
    ensures limit > 0 ==> pages.value >= 0
    ensures limit > 0 ==> pages.value * limit >= total
    ensures limit > 0 ==> (pages.value - 1) * limit < total
    ensures limit < 0 ==> pages.value <= 0
  {
    if limit > 0 then
      var q := (total + limit - 1) / limit;
      assert q * limit + (total + limit - 1) % limit == total + limit - 1;
      Some(q)
    else if limit == 0 then None
    else Some(-(total / -limit))
  }

  /** `x || d` on a number: an absent or zero value falls back to `d`. */
  function OrDefault(x: Option<int>, d: int): int {
    if x.Some? && x.value != 0 then x.value else d
  }

  /** A destructuring default `{ x = d } = dto`: only an absent value falls
      back to `d`. */
  function DefaultIfAbsent(x: Option<int>, d: int): int {
    x.GetOr(d)
  }

  /** `skip((page - 1) * limit).take(limit)` on the matching rows: the rows
      of page `page`, at most `limit` of them, taken in order. */
  function PageOf<T>(rows: seq<T>, page: int, limit: int): (p: seq<T>)
    requires page >= 1 && limit >= 1
    ensures |p| <= limit && |p| <= |rows|
    ensures forall x :: x in p ==> x in rows
    ensures forall k :: 0 <= k < |p| ==> Skip(page, limit) + k < |rows| && p[k] == rows[Skip(page, limit) + k]
  {
    PageFrom(rows, Skip(page, limit), limit)
  }

  /** `skip(from).take(limit)`. */
  function PageFrom<T>(rows: seq<T>, from: nat, limit: nat): (p: seq<T>)
    ensures |p| <= limit && |p| <= |rows|
    ensures forall x :: x in p ==> x in rows
    ensures forall k :: 0 <= k < |p| ==> from + k < |rows| && p[k] == rows[from + k]
  {
    if from >= |rows| then []
    else if from + limit <= |rows| then rows[from..from + limit]
    else rows[from..]
  }

  /** A page of rows sorted by `key` is sorted by `key`. */
  lemma PageOfKeepsOrder<T>(rows: seq<T>, page: int, limit: int, key: T -> int)
    requires page >= 1 && limit >= 1
    requires SortedBy(rows, key)
    ensures SortedBy(PageOf(rows, page, limit), key)
  {
    var p := PageOf(rows, page, limit);
    var s := Skip(page, limit);
    forall i, j | 0 <= i < j < |p| ensures key(p[i]) <= key(p[j]) {
      assert p[i] == rows[s + i] && p[j] == rows[s + j];
    }
  }

  /** Row `i` of the matches is row `i % limit` of page `i / limit + 1`:
      paging loses no row. */
  lemma {:induction false} RowOnItsPage<T>(rows: seq<T>, i: nat, limit: int)
    requires limit >= 1 && i < |rows|
    ensures i / limit + 1 >= 1
    ensures i % limit < |PageOf(rows, i / limit + 1, limit)|
    ensures PageOf(rows, i / limit + 1, limit)[i % limit] == rows[i]
  {
    SkipOfRow(i, limit);
    PageOfAt(rows, i / limit + 1, limit, i % limit);
  }

  /** Page `i / limit + 1` starts `i % limit` rows before row `i`. */
  lemma SkipOfRow(i: nat, limit: int)
    requires limit >= 1
    ensures i / limit >= 0 && 0 <= i % limit < limit
    ensures Skip(i / limit + 1, limit) + i % limit == i
  {
    assert (i / limit) * limit + i % limit == i;
  }

  /** Position `k` of a page is the row `k` places after the page start. */
  lemma PageOfAt<T>(rows: seq<T>, page: int, limit: int, k: int)
    requires page >= 1 && limit >= 1 && 0 <= k < limit && Skip(page, limit) + k < |rows|
    ensures k < |PageOf(rows, page, limit)|
    ensures PageOf(rows, page, limit)[k] == rows[Skip(page, limit) + k]
  {
    var from := Skip(page, limit);
    var p := PageOf(rows, page, limit);
    if from + limit <= |rows| {
      assert p == rows[from..from + limit];
    } else {
      assert p == rows[from..];
    }
  }

  /** The page that holds row `i` is one of the `totalPages` pages. */
  lemma {:induction false} RowPageWithinTotal(total: nat, i: nat, limit: int)
    requires limit >= 1 && i < total
    ensures 1 <= i / limit + 1 <= TotalPages(total, limit).value
  {
    var pages := TotalPages(total, limit).value;
    assert (i / limit) * limit <= i;
    if i / limit + 1 > pages {
      MultiplyMonotone(pages, i / limit, limit);
      assert false;
    }
  }

  /** With a positive limit, each page from 1 to `totalPages` starts at a
      row that exists, and the page after the last starts past every row. */
  lemma {:induction false} PagesCoverRows(total: nat, limit: int, page: int)
    requires limit > 0 && 1 <= page <= TotalPages(total, limit).value
    ensures 0 <= Skip(page, limit) < total
    ensures Skip(TotalPages(total, limit).value + 1, limit) >= total
  {
    var pages := TotalPages(total, limit).value;
    assert (page - 1) * limit <= (pages - 1) * limit by {
      MultiplyMonotone(page - 1, pages - 1, limit);
    }
    assert page - 1 >= 0;
    MultiplyMonotone(0, page - 1, limit);
  }

  lemma MultiplyMonotone(a: int, b: int, c: int)
    requires a <= b && c > 0
    ensures a * c <= b * c
  {
    assert b * c - a * c == (b - a) * c;
  }

  /** The two fallbacks differ only on a zero: the room search turns page 0
      into page 1 and skips nothing, the motel listing keeps it and skips
      `-limit` rows, whatever the limit. An absent page is page 1 and any
      other page is itself for both. */
  lemma ZeroPageFallbacksDiffer(limit: int, page: int)
    ensures OrDefault(Some(0), 1) == 1 && Skip(OrDefault(Some(0), 1), limit) == 0
    ensures DefaultIfAbsent(Some(0), 1) == 0 && Skip(DefaultIfAbsent(Some(0), 1), limit) == -limit
    ensures OrDefault(None, 1) == DefaultIfAbsent(None, 1) == 1
    ensures page != 0 ==> OrDefault(Some(page), 1) == DefaultIfAbsent(Some(page), 1) == page
  {
  }
}
