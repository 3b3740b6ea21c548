/** The article pivot (src/components/ArticlePivot.tsx): the selected index,
    the slide direction, the class of each pivot item and the slide
    offsets. */
module ArticlePivot {
  import opened Wrappers

  const SlideOffset := 300

  /** `getPivotItemClass` (lines 49-53). */
  function PivotItemClass(index: int, current: int): (r: string)
    ensures r == "pivot-item active" <==> index == current
    ensures r == "pivot-item adjacent" <==> index - current == 1 || current - index == 1
    ensures r == "pivot-item distant" <==> index - current > 1 || current - index > 1
  {
    if index == current then "pivot-item active"
    else if (if index - current < 0 then current - index else index - current) == 1 then "pivot-item adjacent"
    else "pivot-item distant"
  }

  /** Only the selected item is active, and at most the two items beside it
      are adjacent. */
  lemma {:induction false} PivotClassesAroundCurrent(current: int, i: int, j: int)
    requires PivotItemClass(i, current) == "pivot-item adjacent"
    requires PivotItemClass(j, current) == "pivot-item adjacent"
    requires i < j
    ensures i == current - 1 && j == current + 1
  {
  }

  /** The `enter` variant's x offset (lines 29-32): the new article comes
      in from the right when moving forward. */
  function EnterX(direction: int): (r: int)
    ensures r == SlideOffset <==> direction > 0
    ensures r == SlideOffset || r == -SlideOffset
  {
    if direction > 0 then SlideOffset else -SlideOffset
  }

  /** The `exit` variant's x offset (lines 37-40). */
  function ExitX(direction: int): (r: int)
    ensures r == SlideOffset <==> direction < 0
    ensures r == SlideOffset || r == -SlideOffset
  {
    if direction < 0 then SlideOffset else -SlideOffset
  }

  /** After a real move the leaving article slides out on the side opposite
      to the one the arriving article comes from; with direction 0 both
      use the left. */
  lemma SlidesOpposite(direction: int)
    ensures direction != 0 ==> ExitX(direction) == -EnterX(direction)
    ensures direction == 0 ==> ExitX(direction) == EnterX(direction) == -SlideOffset
  {
  }

  /** What the component renders for its article list. */
  datatype PivotView<T> = NoArticles | Showing(current: Option<T>)

  /** Lines 55-59: an empty list shows 'No articles found.' and is never
      indexed; otherwise the current article is `articles[currentIndex]`,
      `undefined` (None) when the index is past the end. */
  function ViewOf<T>(articles: seq<T>, currentIndex: int): (r: PivotView<T>)
    ensures r.NoArticles? <==> |articles| == 0
    ensures r.Showing? && r.current.Some? ==>
      0 <= currentIndex < |articles| && r.current.value == articles[currentIndex]
    ensures r.Showing? && 0 <= currentIndex < |articles| ==> r.current.Some?
  {
    if |articles| == 0 then NoArticles
    else if 0 <= currentIndex < |articles| then Showing(Some(articles[currentIndex]))
    else Showing(None)
  }

  /** The `currentIndex` and `direction` state. */
  class Pivot {
    var currentIndex: int
    var direction: int

    /** The direction is always one of -1, 0, 1. */
    predicate Valid()
      reads this
    {
      direction == -1 || direction == 0 || direction == 1
    }

    /** Lines 25-26. */
    constructor ()
      ensures currentIndex == 0 && direction == 0
      ensures Valid()
    {
      currentIndex := 0;
      direction := 0;
    }

    /** `navigateToArticle` (lines 43-47): selecting the current index
        changes nothing; otherwise the direction records whether the move
        goes forward or backward. */
    method NavigateTo(index: int)
      requires Valid()
      modifies this
      ensures Valid()
      ensures index == old(currentIndex) ==> currentIndex == old(currentIndex) && direction == old(direction)
      ensures index != old(currentIndex) ==>
        currentIndex == index && (direction == 1 <==> index > old(currentIndex)) && direction != 0
    {
      if index == currentIndex {
        return;
      }
      direction := if index > currentIndex then 1 else -1;
      currentIndex := index;
    }
  }
}
