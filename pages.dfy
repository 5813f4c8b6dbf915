/** PageTracker: the canvas subclass that records every finished page and
    counts page breaks. The drawing itself is not modelled; `pageNumber`
    stands for the canvas's own 1-based page counter, which its showPage
    advances. */
module Pages {

  /** A4 in points. */
  const A4Width: real := 210.0 * 72.0 / 25.4
  const A4Height: real := 297.0 * 72.0 / 25.4

  /** The record appended for a finished page. */
  datatype PageRecord = PageRecord(number: nat, width: real, height: real)

  class PageTracker {
    var pages: seq<PageRecord>
    var currentPage: nat
    var pageNumber: nat
    const width: real
    const height: real

    /** Every recorded page carries its 1-based number and the page size, and
        the canvas counter is one ahead of the breaks so far. */
    ghost predicate Numbered()
      reads this
    {
      pageNumber == currentPage + 1 &&
      forall k :: 0 <= k < |pages| ==> pages[k] == PageRecord(k + 1, width, height)
    }

    /** While drawing, one record per page break. */
    ghost predicate Valid()
      reads this
    {
      Numbered() && |pages| == currentPage
    }

    constructor (width: real, height: real)
      ensures this.width == width && this.height == height
      ensures pages == [] && currentPage == 0 && pageNumber == 1
      ensures Valid()
    {
      this.width := width;
      this.height := height;
      pages := [];
      currentPage := 0;
      pageNumber := 1;
    }

    /** showPage: record the page being finished, count the break, and let the
        canvas move on to the next page. */
    method ShowPage()
      requires Valid()
      modifies this
      ensures Valid()
      ensures pages == old(pages) + [PageRecord(old(pageNumber), width, height)]
      ensures currentPage == old(currentPage) + 1 && pageNumber == old(pageNumber) + 1
    {
      pages := pages + [PageRecord(pageNumber, width, height)];
      currentPage := currentPage + 1;
      pageNumber := pageNumber + 1;
    }

    /** save: record the last page as well; writing the file is not modelled. */
    method Save()
      requires Valid()
      modifies this
      ensures Numbered() && |pages| == currentPage + 1
      ensures pages == old(pages) + [PageRecord(pageNumber, width, height)]
      ensures currentPage == old(currentPage) && pageNumber == old(pageNumber)
    {
      pages := pages + [PageRecord(pageNumber, width, height)];
    }

    /** getPageNumber: the 0-based page now being drawn, which is the number of
        pages finished so far. */
    method GetPageNumber() returns (n: nat)
      requires Valid()
      ensures n == currentPage && n == |pages|
      ensures n == pageNumber - 1
    {
      n := currentPage;
    }
  }
}
