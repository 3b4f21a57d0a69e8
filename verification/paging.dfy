/** Pagination arithmetic shared by the list handlers:
    `offset = (page - 1) * limit` and `totalPages = Math.ceil(count / limit)`. */
module Paging {
  import opened Common

  /** The `pagination` object of a list reply, plus the offset passed to the
      query. `totalPages` is None when `count / limit` is not finite (limit 0),
      which JSON serialises as null. */
  datatype Pagination = Pagination(currentPage: int, totalPages: Option<int>, limit: int, offset: int)

  /** `Math.ceil(n / d)` for a positive divisor: the least q with q * d >= n. */
  function CeilDiv(n: nat, d: nat): (q: nat)
    requires d > 0
    ensures q * d >= n
    ensures q > 0 ==> (q - 1) * d < n
  {
    if n == 0 then 0
    else
      var k := (n - 1) / d;
      assert k * d + (n - 1) % d == n - 1;
      k + 1
  }

  /** The pagination of a `findAndCountAll` with `count` matching rows.
      PostgreSQL refuses a negative LIMIT or OFFSET, which the handler turns
      into a 500; that case is None. */
  function Paginate(count: nat, page: int, limit: int): (r: Option<Pagination>)
    ensures r.None? <==> limit < 0 || (page - 1) * limit < 0
    ensures r.Some? ==> r.value.offset == (page - 1) * limit && r.value.limit == limit && r.value.currentPage == page
    ensures r.Some? && limit == 0 ==> r.value.totalPages.None?
    ensures r.Some? && limit > 0 ==>
      && r.value.totalPages.Some?
      && r.value.totalPages.value * limit >= count
      && (r.value.totalPages.value > 0 ==> (r.value.totalPages.value - 1) * limit < count)
  {
    var offset := (page - 1) * limit;
    if limit < 0 || offset < 0 then None
    else Some(Pagination(page, if limit == 0 then None else Some(CeilDiv(count, limit)), limit, offset))
  }

  /** How many of `count` rows a LIMIT/OFFSET window returns. */
  function RowsOnPage(count: nat, offset: nat, limit: nat): (n: nat)
    ensures n <= limit
    ensures offset + n <= count || n == 0
    ensures n > 0 <==> offset < count && limit > 0
  {
    if offset >= count then 0
    else if count - offset < limit then count - offset
    else limit
  }

  lemma {:induction false} MulMonotone(a: int, b: int, d: nat)
    requires a <= b
    ensures a * d <= b * d
  {
    assert b * d - a * d == (b - a) * d;
  }

  /** A page from 1 to totalPages always has rows, and a page past it never
      does: the reported page count is exactly the number of non-empty
      windows. */
  lemma {:induction false} PagesCoverRows(count: nat, page: int, limit: nat)
    requires limit > 0 && page >= 1
    ensures RowsOnPage(count, (page - 1) * limit, limit) > 0 <==> page <= CeilDiv(count, limit)
  {
    var q := CeilDiv(count, limit);
    assert (page - 1) * limit >= 0 by { MulMonotone(0, page - 1, limit); }
    if page <= q {
      MulMonotone(page - 1, q - 1, limit);
    } else {
      MulMonotone(q, page - 1, limit);
    }
  }
}
