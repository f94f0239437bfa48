/**
 * Paging for `OFFSET :offset ROWS FETCH NEXT :rows_per_page ROWS ONLY`, with the
 * offset computed as `(pageNumber - 1) * rowsPerPage` in Go's 64-bit `int`.
 */
module Paging {

  const MinInt64: int := -0x8000_0000_0000_0000
  const MaxInt64: int := 0x7fff_ffff_ffff_ffff

  /** Go's `int` on a 64-bit platform. */
  type Int64 = x: int | MinInt64 <= x <= MaxInt64

  /** The two's-complement int64 value of a mathematical result (Go wraps on overflow). */
  function Wrap64(x: int): (r: Int64)
    ensures (r - x) % 0x1_0000_0000_0000_0000 == 0
    ensures MinInt64 <= x <= MaxInt64 ==> r == x
  {
    (x - MinInt64) % 0x1_0000_0000_0000_0000 + MinInt64
  }

  /** `(pageNumber - 1) * rowsPerPage`, evaluated as Go evaluates it. */
  function Offset(pageNumber: Int64, rowsPerPage: Int64): (r: Int64)
    ensures 1 <= pageNumber && 0 <= rowsPerPage && (pageNumber - 1) * rowsPerPage <= MaxInt64 ==>
      r == (pageNumber - 1) * rowsPerPage && r >= 0
  {
    NonNegativeProduct(pageNumber - 1, rowsPerPage);
    Wrap64(Wrap64(pageNumber - 1) * rowsPerPage)
  }

  lemma NonNegativeProduct(a: int, b: int)
    ensures 0 <= a && 0 <= b ==> 0 <= a * b
  {
  }

  function Min(a: int, b: int): int { if a <= b then a else b }

  /** The window of `rows` that skips `offset` rows and keeps at most `count`. */
  function Page<R>(rows: seq<R>, offset: nat, count: nat): (page: seq<R>)
    ensures |page| <= count
    ensures |page| == if offset >= |rows| then 0 else Min(count, |rows| - offset)
    ensures forall i :: 0 <= i < |page| ==> page[i] == rows[offset + i]
  {
    if offset >= |rows| then [] else rows[offset .. Min(offset + count, |rows|)]
  }

  /** Pages 1 to k of `rows`, concatenated. */
  function PagesUpTo<R>(rows: seq<R>, rowsPerPage: nat, k: nat): seq<R> {
    if k == 0 then [] else PagesUpTo(rows, rowsPerPage, k - 1) + Page(rows, (k - 1) * rowsPerPage, rowsPerPage)
  }

  /** Consecutive pages tile the table: no row is skipped and none is repeated. */
  lemma {:induction false} PagesUpToIsPrefix<R>(rows: seq<R>, rowsPerPage: nat, k: nat)
    ensures PagesUpTo(rows, rowsPerPage, k) == rows[..Min(k * rowsPerPage, |rows|)]
  {
    if k > 0 {
      PagesUpToIsPrefix(rows, rowsPerPage, k - 1);
      var start := (k - 1) * rowsPerPage;
      assert start + rowsPerPage == k * rowsPerPage;
      NonNegativeProduct(k - 1, rowsPerPage);
      if start < |rows| {
        assert rows[..Min(start, |rows|)] + rows[start .. Min(start + rowsPerPage, |rows|)]
            == rows[..Min(k * rowsPerPage, |rows|)];
      }
    }
  }

  /** With enough pages, every row of the table is listed once, in table order. */
  lemma PagesCoverTable<R>(rows: seq<R>, rowsPerPage: nat, k: nat)
    requires k * rowsPerPage >= |rows|
    ensures PagesUpTo(rows, rowsPerPage, k) == rows
  {
    PagesUpToIsPrefix(rows, rowsPerPage, k);
  }

  /** Go's overflow makes a page far past the end start at row 0 again. */
  lemma OffsetWrapsAround()
    ensures Offset(0x4000_0000_0000_0001, 4) == 0
  {
  }
}
