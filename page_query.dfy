/** `PageQuery`: a page number and size, each of which falls back to the value
    captured at construction when it is updated with no value. */
module Paging {
  import opened Domain

  class PageQuery {
    /** The construction-time values; readonly in the source. */
    const initialPageNumber: Int32
    const initialPageSize: Int32
    var pageNumber: Int32
    var pageSize: Int32

    constructor (pageNumber: Int32, pageSize: Int32)
      ensures initialPageNumber == pageNumber && initialPageSize == pageSize
      ensures this.pageNumber == pageNumber && this.pageSize == pageSize
    {
      initialPageNumber := pageNumber;
      initialPageSize := pageSize;
      this.pageNumber := pageNumber;
      this.pageSize := pageSize;
    }

    /** A missing value resets to the construction-time page number, not to
        the previous one. */
    method WithPageNumber(pageNumber: Option<Int32>) returns (r: PageQuery)
      modifies this`pageNumber
      ensures r == this
      ensures this.pageNumber == if pageNumber.Some? then pageNumber.value else initialPageNumber
    {
      this.pageNumber := if pageNumber.Some? then pageNumber.value else initialPageNumber;
      r := this;
    }

    /** A missing value resets to the construction-time page size. */
    method WithPageSize(pageSize: Option<Int32>) returns (r: PageQuery)
      modifies this`pageSize
      ensures r == this
      ensures this.pageSize == if pageSize.Some? then pageSize.value else initialPageSize
    {
      this.pageSize := if pageSize.Some? then pageSize.value else initialPageSize;
      r := this;
    }
  }

  /** C#'s unchecked int arithmetic: the 32-bit two's complement value of `x`. */
  function WrapInt32(x: int): (r: Int32)
    ensures (r - x) % 0x1_0000_0000 == 0
    ensures INT32_MIN <= x <= INT32_MAX ==> r == x
  {
    var m := x % 0x1_0000_0000;
    if m <= INT32_MAX then m else m - 0x1_0000_0000
  }

  /** `(PageNumber - 1) * PageSize`, evaluated in unchecked 32-bit arithmetic. */
  function Offset(pageNumber: Int32, pageSize: Int32): (r: Int32)
    ensures INT32_MIN <= (pageNumber - 1) * pageSize <= INT32_MAX ==> r == (pageNumber - 1) * pageSize
    ensures (r - (pageNumber - 1) * pageSize) % 0x1_0000_0000 == 0
  {
    var wrapped := WrapInt32(pageNumber - 1);
    CongruenceTimes(wrapped, pageNumber - 1, pageSize);
    CongruenceTrans(WrapInt32(wrapped * pageSize), wrapped * pageSize, (pageNumber - 1) * pageSize);
    WrapInt32(wrapped * pageSize)
  }

  /** Congruence modulo 2^32 survives multiplying both sides by the same factor. */
  lemma CongruenceTimes(a: int, b: int, c: int)
    requires (a - b) % 0x1_0000_0000 == 0
    ensures (a * c - b * c) % 0x1_0000_0000 == 0
  {
    var k := (a - b) / 0x1_0000_0000;
    assert a - b == 0x1_0000_0000 * k;
    assert a * c - b * c == 0x1_0000_0000 * (k * c);
  }

  /** Congruence modulo 2^32 is transitive. */
  lemma CongruenceTrans(a: int, b: int, c: int)
    requires (a - b) % 0x1_0000_0000 == 0 && (b - c) % 0x1_0000_0000 == 0
    ensures (a - c) % 0x1_0000_0000 == 0
  {
    var k := (a - b) / 0x1_0000_0000;
    var l := (b - c) / 0x1_0000_0000;
    assert a - c == 0x1_0000_0000 * (k + l);
  }

  /** The offset is not guarded: for the last page number and a page size of
      100 the product leaves the int range and wraps to a negative offset,
      which Skip treats as zero. */
  lemma OffsetWrapsForLastPageNumber()
    ensures Offset(INT32_MAX, 100) == -200
  {
    assert WrapInt32(INT32_MAX - 1) == INT32_MAX - 1;
    assert (INT32_MAX - 1) * 100 == 214748364600;
  }
}
