/**
 * The success-stories carousel: previous and next move the index round the
 * three stories, and a dot jumps to its story.
 */
module SuccessStories {
  /** The number of stories. */
  const StoryCount: int := 3

  /** JavaScript's `%`, which truncates toward zero. */
  function JsRem(a: int, n: int): (r: int)
    requires n > 0
    ensures a >= 0 ==> r == a % n
    ensures a < 0 ==> r == -((-a) % n)
  {
    if a >= 0 then a % n else -((-a) % n)
  }

  /** `handlePrevious` */
  function Previous(index: int): int {
    JsRem(index - 1 + StoryCount, StoryCount)
  }

  /** `handleNext` */
  function Next(index: int): int {
    JsRem(index + 1, StoryCount)
  }

  /** `handleDotClick` */
  function DotClick(index: int, dot: int): (r: int)
    ensures r == dot
  {
    dot
  }

  /** The dot drawn wide. */
  predicate Highlighted(dot: int, current: int) {
    dot == current
  }

  /** Previous and next stay within the stories, and each undoes the other. */
  lemma StepsStayInRange(i: int)
    requires 0 <= i < StoryCount
    ensures 0 <= Next(i) < StoryCount && 0 <= Previous(i) < StoryCount
    ensures Previous(Next(i)) == i && Next(Previous(i)) == i
  {
  }

  /** Previous from the first story is the last one, and next from the last is the first. */
  lemma Wraps()
    ensures Previous(0) == StoryCount - 1
    ensures Next(StoryCount - 1) == 0
  {
  }

  /** `k` presses of next. */
  function NextTimes(k: nat, i: int): int {
    if k == 0 then i else Next(NextTimes(k - 1, i))
  }

  lemma {:induction false} NextTimesIsShift(k: nat, i: int)
    requires 0 <= i < StoryCount
    ensures NextTimes(k, i) == (i + k) % StoryCount
  {
    if k > 0 {
      NextTimesIsShift(k - 1, i);
    }
  }

  /** As many nexts as there are stories come back to the same story. */
  lemma FullCircle(i: int)
    requires 0 <= i < StoryCount
    ensures NextTimes(StoryCount as nat, i) == i
  {
    NextTimesIsShift(StoryCount as nat, i);
  }

  /** After a dot click exactly that dot is highlighted. */
  lemma OneDotHighlighted(current: int, dot: int)
    requires 0 <= dot < StoryCount
    ensures var now := DotClick(current, dot);
      Highlighted(dot, now) && forall d :: 0 <= d < StoryCount && Highlighted(d, now) ==> d == dot
  {
  }
}
