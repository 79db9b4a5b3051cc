/** `PageRequest` and `SortDirection` (src/main/kotlin/com/re100io/common/PageRequest.kt):
    a page number and size, with an optional sort column and direction, from which
    the SQL offset and ORDER BY fragment are derived. `page` and `size` are Kotlin
    `Int`s; the declared bounds (page ≥ 0, 1 ≤ size ≤ 1000) are checked by bean
    validation, not by the class, so they are a predicate here, not a type. */
module PageRequests {
  import opened Wrappers
  import opened Jvm
  import opened Text

  datatype SortDirection = Asc | Desc {
    /** `direction.name`. */
    function Name(): string {
      match this
      case Asc => "ASC"
      case Desc => "DESC"
    }
  }

  datatype PageRequest = PageRequest(page: Int32, size: Int32, sort: Option<string>, direction: SortDirection)

  const DefaultPage: Int32 := 0
  const DefaultSize: Int32 := 20
  const MaxSize: Int32 := 1000

  /** The `@Min`/`@Max` bounds declared on the fields. */
  predicate WithinDeclaredBounds(p: PageRequest) {
    p.page >= 0 && 1 <= p.size <= MaxSize
  }

  /** `getOffset()` as written: `page * size` in 32-bit arithmetic, which wraps
      around once the product exceeds `Int.MAX_VALUE`. */
  function GetOffset(p: PageRequest): (r: Int32)
    ensures (r - p.page * p.size) % 0x1_0000_0000 == 0
    ensures IntMin <= p.page * p.size <= IntMax ==> r == p.page * p.size
  {
    WrapInt32(p.page * p.size)
  }

  /** A page inside the declared bounds whose offset comes out negative: the
      product 2147484000 does not fit in an `Int`. */
  lemma GetOffsetOverflows()
    ensures WithinDeclaredBounds(PageRequest(2147484, 1000, None, Asc))
    ensures GetOffset(PageRequest(2147484, 1000, None, Asc)) == -2147483296
  {
    assert WrapInt32(2147484000) == -2147483296;
  }

  /** Within the declared bounds the written offset is right exactly when the
      product fits in an `Int`. */
  lemma GetOffsetCorrectIffNoOverflow(p: PageRequest)
    requires WithinDeclaredBounds(p)
    ensures GetOffset(p) == p.page * p.size <==> p.page * p.size <= IntMax
  {
  }

  /** The offset the code evidently intends: `page.toLong() * size`, which cannot
      overflow for an `Int` page and size. */
  function Offset(p: PageRequest): (r: Long)
    requires WithinDeclaredBounds(p)
    ensures r >= 0
  {
    LemmaMulBounded(p.page, p.size, IntMax, MaxSize);
    p.page * p.size
  }

  /** Under the declared bounds the offset skips exactly `page` whole pages: it is
      a non-negative multiple of the page size, and the page number is recovered
      by dividing by the size. */
  lemma OffsetSkipsWholePages(p: PageRequest)
    requires WithinDeclaredBounds(p)
    ensures Offset(p) >= 0
    ensures Offset(p) % p.size == 0
    ensures Offset(p) / p.size == p.page
  {
    var o := Offset(p);
    assert o == p.page * p.size;
    assert (p.page * p.size) / p.size == p.page by {
      LemmaMulDivCancels(p.page, p.size);
    }
    assert (p.page * p.size) % p.size == 0 by {
      LemmaMulDivCancels(p.page, p.size);
    }
  }

  lemma LemmaMulDivCancels(a: nat, b: int)
    requires b > 0
    ensures (a * b) / b == a && (a * b) % b == 0
  {
    var q, r := (a * b) / b, (a * b) % b;
    assert (a - q) * b == r;
    assert a - q >= 1 ==> (a - q) * b >= b;
    assert a - q <= -1 ==> (a - q) * b <= -b;
  }

  lemma LemmaMulBounded(a: nat, b: nat, maxA: nat, maxB: nat)
    requires a <= maxA && b <= maxB
    ensures a * b <= maxA * maxB
  {
    assert a * b <= maxA * b;
    assert maxA * b <= maxA * maxB;
  }

  /** When the product fits, the written and the intended offset agree. */
  lemma OffsetAgreesWhenNoOverflow(p: PageRequest)
    requires WithinDeclaredBounds(p) && p.page * p.size <= IntMax
    ensures GetOffset(p) == Offset(p)
  {
  }

  /** `getSortSql()`: no fragment for a null or blank sort column, otherwise the
      column, one space and the direction's name. */
  function GetSortSql(p: PageRequest): (r: Option<string>)
    ensures r.None? <==> IsNullOrBlank(p.sort)
    ensures r.Some? ==> r.value == p.sort.value + " " + p.direction.Name()
  {
    if IsNullOrBlank(p.sort) then None else Some(p.sort.value + " " + p.direction.Name())
  }

  /** The ORDER BY fragment starts with the sort column and ends with "ASC" or
      "DESC"; the direction can be read back from its last word. */
  lemma SortSqlNamesColumnAndDirection(p: PageRequest)
    requires !IsNullOrBlank(p.sort)
    ensures var s := GetSortSql(p).value;
      && |s| > |p.sort.value| + 3
      && s[..|p.sort.value|] == p.sort.value
      && s[|p.sort.value|] == ' '
      && (p.direction == Desc <==> s[|s| - 4..] == "DESC")
  {
    var s := GetSortSql(p).value;
    assert s[..|p.sort.value|] == p.sort.value;
    if p.direction == Asc {
      assert s[|s| - 4..] == " ASC";
    }
  }

  /** `PageRequest()`: page 0, 20 rows, no sort column, ascending. */
  function Default(): (r: PageRequest)
    ensures WithinDeclaredBounds(r) && GetSortSql(r).None?
  {
    PageRequest(DefaultPage, DefaultSize, None, Asc)
  }

  /** `of(page = 0, size = 20)`: the defaults for everything but page and size, so
      there is never a sort fragment. */
  function Of(page: Int32 := DefaultPage, size: Int32 := DefaultSize): (r: PageRequest)
    ensures r.page == page && r.size == size && r.direction == Asc
    ensures GetSortSql(r).None?
  {
    PageRequest(page, size, None, Asc)
  }

  /** `of(page = 0, size = 20, sort, direction = ASC)`: all four arguments kept. */
  function OfSorted(sort: string, page: Int32 := DefaultPage, size: Int32 := DefaultSize, direction: SortDirection := Asc): (r: PageRequest)
    ensures r.page == page && r.size == size && r.sort == Some(sort) && r.direction == direction
  {
    PageRequest(page, size, Some(sort), direction)
  }

  /** `of()` with no arguments is the default request. */
  lemma OfWithDefaultsIsDefault()
    ensures Of() == Default()
  {
  }
}
