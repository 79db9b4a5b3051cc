/** `PageResponse` and `PaginationInfo` (src/main/kotlin/com/re100io/common/PageResponse.kt):
    one page of content with the pagination facts derived from page, size and
    total. `total` is a Kotlin `Long`, `page`, `size` and `totalPages` are `Int`s,
    and the page count is computed in `Long` arithmetic and then cut to an `Int`. */
module PageResponses {
  import opened Wrappers
  import opened Jvm

  datatype PaginationInfo = PaginationInfo(
    page: Int32,
    size: Int32,
    total: Option<Long>,
    totalPages: Option<Int32>,
    hasNext: bool,
    hasPrevious: bool)

  datatype PageResponse<T> = PageResponse(content: seq<T>, pagination: PaginationInfo)

  /** `if (size > 0) ((total + size - 1) / size).toInt() else 0`: the sum wraps as a
      `Long`, the division truncates toward zero, and `toInt()` keeps the low 32 bits. */
  function TotalPages(total: Long, size: Int32): (r: Int32)
    ensures size <= 0 ==> r == 0
    ensures size > 0 && 0 <= total && total + size - 1 <= LongMax && (total + size - 1) / size <= IntMax ==>
      r == (total + size - 1) / size
  {
    if size > 0 then WrapInt32(TruncDiv(WrapLong(total + size - 1), size)) else 0
  }

  /** A negative total, which the source does not rule out, gives the truncating
      quotient: a page count between the total and 0, and 0 pages when fewer than
      `size` rows are missing. */
  lemma NegativeTotalPages(total: Long, size: Int32)
    requires size > 0 && IntMin <= total < 0
    ensures TotalPages(total, size) == TruncDiv(total + size - 1, size)
    ensures total <= TotalPages(total, size) <= 0
    ensures -size < total ==> TotalPages(total, size) == 0
  {
    assert WrapLong(total + size - 1) == total + size - 1;
    NegativeTotal(total, size);
  }

  /** A negative total gives a quotient between the total and 0, and 0 when fewer
      than `size` rows are missing. */
  lemma NegativeTotal(total: int, size: int)
    requires size > 0
    ensures total < 0 ==> total <= TruncDiv(total + size - 1, size) <= 0
    ensures -size < total < 0 ==> TruncDiv(total + size - 1, size) == 0
  {
    var a := total + size - 1;
    if total < 0 {
      if a < 0 {
        QuotientAtMost(-a, size);
      } else {
        SmallQuotient(a, size);
      }
    }
  }

  /** Dividing a natural number by a positive one does not make it larger. */
  lemma QuotientAtMost(n: nat, d: int)
    requires d > 0
    ensures n / d <= n
  {
    var q := n / d;
    assert q * d <= n;
    assert q <= q * d;
  }

  lemma SmallQuotient(a: int, d: int)
    requires 0 <= a < d
    ensures a / d == 0
  {
  }

  /** `(total + size - 1) / size` is the least number of pages of `size` rows that
      hold `total` rows. */
  lemma CeilingDivision(total: nat, size: int)
    requires size > 0
    ensures var q := (total + size - 1) / size;
      && q * size >= total && (q - 1) * size < total
      && (total == 0 ==> q == 0)
  {
    var q, rem := (total + size - 1) / size, (total + size - 1) % size;
    assert total + size - 1 == q * size + rem && 0 <= rem < size;
    assert (q - 1) * size == q * size - size;
    assert q >= 1 ==> q * size >= size;
    assert q <= -1 ==> q * size <= -size;
  }

  /** With a positive size, a non-negative total and no overflow, the page count is
      the ceiling of total / size: every row lies on one of the pages, and the last
      page is not empty. A zero total gives zero pages. */
  lemma TotalPagesIsCeiling(total: Long, size: Int32)
    requires size > 0 && total >= 0
    requires total + size - 1 <= LongMax && (total + size - 1) / size <= IntMax
    ensures TotalPages(total, size) * size >= total
    ensures total > 0 ==> (TotalPages(total, size) - 1) * size < total
    ensures total == 0 ==> TotalPages(total, size) == 0
  {
    CeilingDivision(total, size);
  }

  /** `PageResponse.of(content, page, size, total, hasNext = false)`. */
  function Of<T>(content: seq<T>, page: Int32, size: Int32, total: Long, hasNext: bool := false): (r: PageResponse<T>)
    ensures r.content == content
    ensures r.pagination.page == page && r.pagination.size == size && r.pagination.hasNext == hasNext
    ensures r.pagination.total == Some(total) && r.pagination.totalPages == Some(TotalPages(total, size))
    ensures r.pagination.hasPrevious <==> page > 0
  {
    PageResponse(content, PaginationInfo(page, size, Some(total), Some(TotalPages(total, size)), hasNext, page > 0))
  }

  /** `PageResponse.ofSimple(content, page, size, hasNext = false)`: no total known. */
  function OfSimple<T>(content: seq<T>, page: Int32, size: Int32, hasNext: bool := false): (r: PageResponse<T>)
    ensures r.content == content
    ensures r.pagination.page == page && r.pagination.size == size && r.pagination.hasNext == hasNext
    ensures r.pagination.total.None? && r.pagination.totalPages.None?
    ensures r.pagination.hasPrevious <==> page > 0
  {
    PageResponse(content, PaginationInfo(page, size, None, None, hasNext, page > 0))
  }

  /** The simple page is the full page with the two totals dropped: both factories
      agree on content, page, size and both navigation flags, whatever the total. */
  lemma OfSimpleDropsOnlyTotals<T>(content: seq<T>, page: Int32, size: Int32, total: Long, hasNext: bool)
    ensures var full := Of(content, page, size, total, hasNext);
      OfSimple(content, page, size, hasNext)
        == PageResponse(full.content, full.pagination.(total := None, totalPages := None))
  {
  }
}
