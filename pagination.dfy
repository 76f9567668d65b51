/**
 * The pagination envelope shared by every module that returns a list
 * (src/types/index.ts). `paginate` only assembles the envelope: it passes the
 * page of items and the caller's numbers through and derives `totalPages`.
 */
module Pagination {
  import opened Wrappers

  datatype SortDir = Asc | Desc

  /** The shape a list request may carry; no defaults are applied here. */
  datatype PaginationQuery = PaginationQuery(
    page: Option<int>,
    limit: Option<int>,
    sortBy: Option<string>,
    sortDir: Option<SortDir>)

  datatype PaginatedResult<T> = PaginatedResult(
    items: seq<T>,
    total: int,
    page: int,
    limit: int,
    totalPages: int)

  /** `Math.ceil` on an exact real number: the least integer not below `x`. */
  function Ceil(x: real): (r: int)
    ensures x <= r as real < x + 1.0
  {
    -((-x).Floor)
  }

  /**
   * `paginate(items, total, page, limit)`. The quotient is taken over the reals,
   * as `total / limit` is in JavaScript; only `limit == 0` makes it undefined.
   */
  function Paginate<T>(items: seq<T>, total: int, page: int, limit: int): (r: PaginatedResult<T>)
    requires limit != 0
    ensures r.items == items && r.total == total && r.page == page && r.limit == limit
    ensures var x := total as real / limit as real; x <= r.totalPages as real < x + 1.0
  {
    PaginatedResult(items, total, page, limit, Ceil(total as real / limit as real))
  }

  /** Reference count of pages: peel off one full page of `limit` items at a time. */
  function PagesNeeded(total: nat, limit: nat): nat
    requires limit >= 1
    decreases total
  {
    if total == 0 then 0
    else if total <= limit then 1
    else 1 + PagesNeeded(total - limit, limit)
  }

  // ---------------------------------------------------------------------------
  // Integer ceiling division

  /** `(total + limit - 1) / limit` is the least page count that covers `total`. */
  lemma CeilDivBounds(total: int, limit: int)
    requires total >= 0 && limit >= 1
    ensures ((total + limit - 1) / limit) * limit >= total
    ensures ((total + limit - 1) / limit - 1) * limit < total
    ensures (total + limit - 1) / limit >= 0
  {
  }

  /** A page count `k` that covers `total` while `k - 1` does not is unique. */
  lemma CoverIsUnique(total: int, limit: int, j: int, k: int)
    requires limit >= 1
    requires j * limit >= total && (j - 1) * limit < total
    requires k * limit >= total && (k - 1) * limit < total
    ensures j == k
  {
  }

  /** The real quotient's ceiling is the integer ceiling division. */
  lemma CeilOfQuotient(total: int, limit: int)
    requires total >= 0 && limit >= 1
    ensures Ceil(total as real / limit as real) == (total + limit - 1) / limit
  {
    var q := (total + limit - 1) / limit;
    var x := total as real / limit as real;
    CeilDivBounds(total, limit);
    assert x * limit as real == total as real;
    assert x <= q as real by {
      assert (q * limit) as real == q as real * limit as real;
      assert total as real <= q as real * limit as real;
      RealDivLeq(total as real, q as real, limit as real);
    }
    assert (q - 1) as real < x by {
      if total == 0 {
        assert q == 0;
      } else {
        assert ((q - 1) * limit) as real == (q - 1) as real * limit as real;
        RealLtDiv((q - 1) as real, total as real, limit as real);
      }
    }
    var c := Ceil(x);
    assert x <= c as real < x + 1.0;
  }

  lemma MulCancel(a: int, b: int, c: int)
    requires c > 0 && a * c > b * c
    ensures a > b
  {
  }

  lemma RealDivLeq(a: real, b: real, c: real)
    requires c > 0.0 && a <= b * c
    ensures a / c <= b
  {
  }

  lemma RealLtDiv(b: real, a: real, c: real)
    requires c > 0.0 && b * c < a
    ensures b < a / c
  {
  }

  // ---------------------------------------------------------------------------
  // Properties of the envelope

  /** For a non-negative total and a positive limit, `totalPages` is integer ceiling division. */
  lemma TotalPagesIsCeilDiv<T>(items: seq<T>, total: int, page: int, limit: int)
    requires total >= 0 && limit >= 1
    ensures Paginate(items, total, page, limit).totalPages == (total + limit - 1) / limit
  {
    CeilOfQuotient(total, limit);
  }

  /** `totalPages` pages of `limit` items hold all `total` items; one page fewer does not. */
  lemma TotalPagesCovers<T>(items: seq<T>, total: int, page: int, limit: int)
    requires total >= 0 && limit >= 1
    ensures var n := Paginate(items, total, page, limit).totalPages;
      n >= 0 && n * limit >= total && (n - 1) * limit < total
  {
    TotalPagesIsCeilDiv(items, total, page, limit);
    CeilDivBounds(total, limit);
  }

  /** A page count covers `total` while one page fewer does not if and only if it is `totalPages`. */
  lemma TotalPagesIsOnlyCover<T>(items: seq<T>, total: int, page: int, limit: int, k: int)
    requires total >= 0 && limit >= 1
    ensures (k * limit >= total && (k - 1) * limit < total)
      <==> k == Paginate(items, total, page, limit).totalPages
  {
    TotalPagesCovers(items, total, page, limit);
    if k * limit >= total && (k - 1) * limit < total {
      CoverIsUnique(total, limit, k, Paginate(items, total, page, limit).totalPages);
    }
  }

  /** `totalPages` agrees with counting pages one full page at a time. */
  lemma {:induction false} TotalPagesCountsPages<T>(items: seq<T>, total: int, page: int, limit: int)
    requires total >= 0 && limit >= 1
    ensures Paginate(items, total, page, limit).totalPages == PagesNeeded(total, limit)
  {
    PagesNeededCovers(total, limit);
    TotalPagesIsOnlyCover(items, total, page, limit, PagesNeeded(total, limit));
  }

  lemma {:induction false} PagesNeededCovers(total: nat, limit: nat)
    requires limit >= 1
    ensures PagesNeeded(total, limit) * limit >= total
    ensures (PagesNeeded(total, limit) - 1) * limit < total
    decreases total
  {
    if total > limit {
      PagesNeededCovers(total - limit, limit);
      var k := PagesNeeded(total - limit, limit);
      assert PagesNeeded(total, limit) == k + 1;
      assert (k + 1) * limit == k * limit + limit;
    }
  }

  /** The boundary cases: an empty listing, exactly one full page, one item more. */
  lemma TotalPagesAtBoundaries<T>(items: seq<T>, page: int, limit: int)
    requires limit >= 1
    ensures Paginate(items, 0, page, limit).totalPages == 0
    ensures Paginate(items, limit, page, limit).totalPages == 1
    ensures Paginate(items, limit + 1, page, limit).totalPages == 2
  {
    TotalPagesIsCeilDiv(items, 0, page, limit);
    TotalPagesIsCeilDiv(items, limit, page, limit);
    TotalPagesIsCeilDiv(items, limit + 1, page, limit);
    assert (limit + limit - 1) / limit == 1;
    assert (limit + 1 + limit - 1) / limit == 2;
  }

  /** More items in the listing never means fewer pages. */
  lemma TotalPagesMonotone<T>(items: seq<T>, t1: int, t2: int, page: int, limit: int)
    requires 0 <= t1 <= t2 && limit >= 1
    ensures Paginate(items, t1, page, limit).totalPages <= Paginate(items, t2, page, limit).totalPages
  {
    var n1 := Paginate(items, t1, page, limit).totalPages;
    var n2 := Paginate(items, t2, page, limit).totalPages;
    TotalPagesCovers(items, t1, page, limit);
    TotalPagesCovers(items, t2, page, limit);
    MulCancel(n2, n1 - 1, limit);
  }

  /** The second page of three items out of ten, three per page. */
  lemma SecondPageOfTen()
    ensures Paginate(['a', 'b', 'c'], 10, 2, 3) == PaginatedResult(['a', 'b', 'c'], 10, 2, 3, 4)
  {
    TotalPagesIsCeilDiv(['a', 'b', 'c'], 10, 2, 3);
  }
}
