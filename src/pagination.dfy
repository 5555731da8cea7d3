/** The pager under the product grid: how many pages there are, which page
    Prev and Next move to, and when either button is disabled. */
module Pagination {

  /** The page count: enough pages to hold every
      result, and one page even when there is none. */
  function TotalPages(total: nat, pageSize: nat): (n: nat)
    requires pageSize > 0
    ensures n >= 1
    ensures total <= n * pageSize
    ensures n == 1 || (n - 1) * pageSize < total
  {
    var c := (total + pageSize - 1) / pageSize;
    CeilingBounds(total, pageSize, c);
    if c < 1 then 1 else c
  }

  lemma CeilingBounds(total: nat, pageSize: nat, c: int)
    requires pageSize > 0 && c == (total + pageSize - 1) / pageSize
    ensures (total <= c * pageSize && (c - 1) * pageSize < total) || (total == 0 && c == 0)
  {
    var r := (total + pageSize - 1) % pageSize;
    assert total + pageSize - 1 == c * pageSize + r;
    assert (c - 1) * pageSize == c * pageSize - pageSize;
  }

  /** The page Prev emits: one back, never below the first. */
  function Prev(page: int): (r: int)
    ensures r >= 1
    ensures page > 1 ==> r == page - 1
    ensures page <= 1 ==> r == 1
  {
    if page - 1 < 1 then 1 else page - 1
  }

  /** The page Next emits: one forward, never past the last. */
  function Next(page: int, totalPages: int): (r: int)
    ensures r <= totalPages
    ensures page < totalPages ==> r == page + 1
    ensures page >= totalPages ==> r == totalPages
  {
    if totalPages < page + 1 then totalPages else page + 1
  }

  predicate PrevDisabled(page: int) { page <= 1 }

  predicate NextDisabled(page: int, totalPages: int) { page >= totalPages }

  /** From a page in range, both buttons emit a page in range. */
  lemma StaysInRange(page: int, totalPages: int)
    requires 1 <= page <= totalPages
    ensures 1 <= Prev(page) <= totalPages
    ensures 1 <= Next(page, totalPages) <= totalPages
  {
  }

  /** A button is disabled exactly when pressing it would not move. */
  lemma DisabledIffStuck(page: int, totalPages: int)
    requires 1 <= page <= totalPages
    ensures PrevDisabled(page) <==> Prev(page) == page
    ensures NextDisabled(page, totalPages) <==> Next(page, totalPages) == page
  {
  }
}
