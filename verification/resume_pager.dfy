/** The résumé pager of the About page (src/components/About.tsx): the page
    count reported by the PDF viewer, the page shown, and the loading
    flag. */
module ResumePager {

  function Max(a: int, b: int): int { if a >= b then a else b }

  function MinInt(a: int, b: int): int { if a <= b then a else b }

  /** Line 32: `Math.max(1, pageNumber - 1)`. */
  function PrevPage(pageNumber: int): (r: int)
    ensures r >= 1
    ensures pageNumber > 1 ==> r == pageNumber - 1
    ensures pageNumber == 1 ==> r == pageNumber
  {
    Max(1, pageNumber - 1)
  }

  /** Line 42: `Math.min(numPages, pageNumber + 1)`. */
  function NextPage(pageNumber: int, numPages: nat): (r: int)
    ensures r <= numPages
    ensures pageNumber < numPages ==> r == pageNumber + 1
    ensures pageNumber == numPages ==> r == pageNumber
  {
    MinInt(numPages, pageNumber + 1)
  }

  /** A page in range stays in range under both buttons. */
  lemma PagingPreservesRange(pageNumber: int, numPages: nat)
    requires 1 <= pageNumber <= numPages
    ensures 1 <= PrevPage(pageNumber) <= numPages
    ensures 1 <= NextPage(pageNumber, numPages) <= numPages
  {
  }

  /** Away from the ends, Previous undoes Next and Next undoes Previous. */
  lemma PrevNextInverse(pageNumber: int, numPages: nat)
    ensures 1 <= pageNumber < numPages ==> PrevPage(NextPage(pageNumber, numPages)) == pageNumber
    ensures 1 < pageNumber <= numPages ==> NextPage(PrevPage(pageNumber), numPages) == pageNumber
  {
  }

  /** Line 29: the controls are rendered only for a document of more than
      one page; lines 33 and 43: each button is disabled exactly where it
      would not move. */
  function ControlsOf(numPages: nat, pageNumber: int): (r: (bool, bool, bool))
    ensures r.0 <==> numPages > 1
    ensures r.0 && 1 <= pageNumber <= numPages ==> (r.1 <==> PrevPage(pageNumber) == pageNumber)
    ensures r.0 && 1 <= pageNumber <= numPages ==> (r.2 <==> NextPage(pageNumber, numPages) == pageNumber)
  {
    (numPages > 1, pageNumber <= 1, pageNumber >= numPages)
  }

  class Pager {
    var numPages: nat
    var pageNumber: int
    var loading: bool

    /** The page shown is a real page once the page count is known. */
    predicate Valid()
      reads this
    {
      pageNumber >= 1 && (numPages >= 1 ==> pageNumber <= numPages)
    }

    /** Lines 9-11. */
    constructor ()
      ensures numPages == 0 && pageNumber == 1 && loading
      ensures Valid()
    {
      numPages := 0;
      pageNumber := 1;
      loading := true;
    }

    /** `onDocumentLoadSuccess` (lines 13-16): the page shown is kept. */
    method OnLoadSuccess(pages: nat)
      modifies this
      ensures numPages == pages && !loading && pageNumber == old(pageNumber)
      ensures old(Valid()) && old(pageNumber) <= pages ==> Valid()
    {
      numPages := pages;
      loading := false;
    }

    /** `onDocumentLoadError` (lines 18-21): only the loading flag changes. */
    method OnLoadError()
      modifies this
      ensures !loading && numPages == old(numPages) && pageNumber == old(pageNumber)
    {
      loading := false;
    }

    /** The Previous button (line 32); it exists only while the controls
        are rendered. */
    method Previous()
      requires Valid() && numPages > 1
      modifies this
      ensures pageNumber == PrevPage(old(pageNumber))
      ensures numPages == old(numPages) && loading == old(loading)
      ensures Valid()
    {
      pageNumber := Max(1, pageNumber - 1);
    }

    /** The Next button (line 42); it exists only while the controls are
        rendered. */
    method Next()
      requires Valid() && numPages > 1
      modifies this
      ensures pageNumber == NextPage(old(pageNumber), numPages)
      ensures numPages == old(numPages) && loading == old(loading)
      ensures Valid()
    {
      pageNumber := MinInt(numPages, pageNumber + 1);
    }
  }
}
