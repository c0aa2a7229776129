/**
 * The page arithmetic of the `model.pagination` and `model.pagesize` hooks
 * (packages/xadmin-model/src/hooks.js): how many pages the current count
 * spans, which page the current offset shows, and which offset a page
 * change writes. JavaScript's floating-point `Math.ceil(count / limit)` and
 * `Math.floor(skip / limit)` are taken on integers with a positive limit,
 * where Dafny's `/` (Euclidean) is the floor.
 */
module Pagination {

  /** `Math.ceil(count / limit)`: the least page count whose pages hold `count` items. */
  function PageCount(count: int, limit: int): (pages: int)
    requires limit > 0
    ensures (pages - 1) * limit < count <= pages * limit
  {
    var q := (-count) / limit;
    assert q * limit <= -count < (q + 1) * limit;
    -q
  }

  /** `Math.floor(skip / limit) + 1`: the page whose window contains offset `skip`. */
  function ActivePage(skip: int, limit: int): (page: int)
    requires limit > 0
    ensures (page - 1) * limit <= skip < page * limit
  {
    skip / limit + 1
  }

  /** The offset `changePage(page)` writes: `limit * (page - 1)`. */
  function PageSkip(limit: int, page: int): (skip: int)
    ensures limit > 0 ==> (page - 1) * limit <= skip < page * limit
  {
    assert page * limit == (page - 1) * limit + limit;
    limit * (page - 1)
  }

  /** The window of a page is the only one holding its offsets: the page is determined by the offset. */
  lemma {:induction false} PageOfWindow(skip: int, limit: int, page: int)
    requires limit > 0
    requires (page - 1) * limit <= skip < page * limit
    ensures ActivePage(skip, limit) == page
  {
    var p := ActivePage(skip, limit);
    if p < page {
      assert p * limit <= (page - 1) * limit by {
        assert p <= page - 1;
        MulMonotone(p, page - 1, limit);
      }
    }
  }

  lemma MulMonotone(a: int, b: int, c: int)
    requires a <= b && c > 0
    ensures a * c <= b * c
  {
    assert b * c - a * c == (b - a) * c;
  }

  /** After `changePage(page)` the active page is `page`, for every page number. */
  lemma {:induction false} ChangePageShowsPage(limit: int, page: int)
    requires limit > 0
    ensures ActivePage(PageSkip(limit, page), limit) == page
  {
    var skip := PageSkip(limit, page);
    assert (page - 1) * limit == skip;
    assert skip < page * limit;
    PageOfWindow(skip, limit, page);
  }

  /** `setPageSize(size)` resets the offset to 0, which is page 1 of every size. */
  lemma {:induction false} PageSizeResetShowsFirstPage(size: int)
    requires size > 0
    ensures ActivePage(0, size) == 1
  {
    PageOfWindow(0, size, 1);
  }

  /** An offset inside the list lies on one of its pages: 1 <= activePage <= page count. */
  lemma {:induction false} ActivePageInRange(skip: int, limit: int, count: int)
    requires limit > 0
    requires 0 <= skip < count
    ensures 1 <= ActivePage(skip, limit) <= PageCount(count, limit)
  {
    var p, n := ActivePage(skip, limit), PageCount(count, limit);
    if p < 1 {
      MulMonotone(p, 0, limit);
    }
    if p > n {
      MulMonotone(n, p - 1, limit);
    }
  }

  /** Changing to any page between 1 and the page count writes an offset below the count. */
  lemma {:induction false} PageSkipInRange(limit: int, count: int, page: int)
    requires limit > 0
    ensures 1 <= page <= PageCount(count, limit) ==> 0 <= PageSkip(limit, page) < count
  {
    if 1 <= page <= PageCount(count, limit) {
      MulMonotone(0, page - 1, limit);
      MulMonotone(page - 1, PageCount(count, limit) - 1, limit);
    }
  }
}
