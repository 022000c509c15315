/**
 * The design image carousel (src/components/ImageCarousel.tsx): one
 * `current` index over the images, moved by the arrows and the dots.
 */
module ImageCarousel {

  /** `(prev + 1) % images.length`. */
  function NextIndex(i: int, n: int): (r: int)
    requires n > 0 && 0 <= i < n
    ensures 0 <= r < n
    ensures i < n - 1 ==> r == i + 1
    ensures i == n - 1 ==> r == 0
  {
    (i + 1) % n
  }

  /** `(prev - 1 + images.length) % images.length`. */
  function PrevIndex(i: int, n: int): (r: int)
    requires n > 0 && 0 <= i < n
    ensures 0 <= r < n
    ensures i > 0 ==> r == i - 1
    ensures i == 0 ==> r == n - 1
  {
    (i - 1 + n) % n
  }

  /** Back after forward, and forward after back, return to the same image. */
  lemma PrevUndoesNext(i: int, n: int)
    requires n > 0 && 0 <= i < n
    ensures PrevIndex(NextIndex(i, n), n) == i
    ensures NextIndex(PrevIndex(i, n), n) == i
  {
  }

  /** The index after `k` presses of the forward arrow. */
  function NextTimes(i: int, n: int, k: nat): (r: int)
    requires n > 0 && 0 <= i < n
    ensures 0 <= r < n
  {
    if k == 0 then i else NextIndex(NextTimes(i, n, k - 1), n)
  }

  /** Up to a full turn, `k` forward presses move the index `k` places, wrapping once past the last image. */
  lemma {:induction false} NextTimesIsRotation(i: int, n: int, k: nat)
    requires n > 0 && 0 <= i < n && k <= n
    ensures NextTimes(i, n, k) == if i + k < n then i + k else i + k - n
  {
    if k > 0 {
      NextTimesIsRotation(i, n, k - 1);
    }
  }

  /** As many forward presses as there are images return to the starting image. */
  lemma FullTurnReturns(i: int, n: int)
    requires n > 0 && 0 <= i < n
    ensures NextTimes(i, n, n) == i
  {
    NextTimesIsRotation(i, n, n);
  }

  /** Arrows, dots and the counter are shown only for more than one image. */
  predicate ShowsControls(n: int) {
    n > 1
  }

  /** The carousel's state: the number of images and the index shown. */
  class Carousel {
    const count: nat
    var current: int

    ghost predicate Valid()
      reads this
    {
      count > 0 && 0 <= current < count
    }

    /** Starts on the first image. */
    constructor(count: nat)
      requires count > 0
      ensures this.count == count && current == 0 && Valid()
    {
      this.count := count;
      current := 0;
    }

    /** The right arrow. */
    method Next()
      requires Valid()
      modifies this
      ensures Valid() && current == NextIndex(old(current), count)
    {
      current := (current + 1) % count;
    }

    /** The left arrow. */
    method Prev()
      requires Valid()
      modifies this
      ensures Valid() && current == PrevIndex(old(current), count)
    {
      current := (current - 1 + count) % count;
    }

    /** Dot `k`: shows image `k`. */
    method GoTo(k: int)
      requires Valid() && 0 <= k < count
      modifies this
      ensures Valid() && current == k
    {
      current := k;
    }

    /** The counter text's numbers: `current + 1` of `count`, both from 1 to `count`. */
    function Counter(): (shown: (int, int))
      requires Valid()
      reads this
      ensures 1 <= shown.0 <= shown.1 && shown.1 == count
      ensures shown.0 == current + 1
    {
      (current + 1, count)
    }

    /** The dot drawn as the active one. */
    predicate DotActive(k: int)
      reads this
    {
      k == current
    }
  }
}
