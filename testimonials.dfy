/** The landing page's testimonial carousel. */
module Testimonials {
  /** The number of testimonials listed. */
  const Count: int := 5

  /** JavaScript's `%`: the remainder takes the sign of the dividend. */
  function JsRem(a: int, n: int): (r: int)
    requires n > 0
    ensures a >= 0 ==> r == a % n && 0 <= r < n
    ensures a < 0 ==> -n < r <= 0 && r == -((-a) % n)
  {
    if a >= 0 then a % n else -((-a) % n)
  }

  predicate ValidIndex(i: int) {
    0 <= i < Count
  }

  /** `nextTestimonial`'s updater, `(prev + 1) % testimonials.length`: one step on, the last wrapping to the first. */
  function NextIndex(i: int): (r: int)
    ensures ValidIndex(i) ==> ValidIndex(r) && r == if i == Count - 1 then 0 else i + 1
  {
    JsRem(i + 1, Count)
  }

  /** `prevTestimonial`'s updater, `(prev - 1 + testimonials.length) % testimonials.length`: one step back, the
      first wrapping to the last. */
  function PrevIndex(i: int): (r: int)
    ensures ValidIndex(i) ==> ValidIndex(r) && r == if i == 0 then Count - 1 else i - 1
  {
    JsRem(i - 1 + Count, Count)
  }

  /** The last testimonial is followed by the first, and the first is preceded by the last. */
  lemma WrapAround()
    ensures NextIndex(Count - 1) == 0 && PrevIndex(0) == Count - 1
  {
  }

  /** Previous undoes next and next undoes previous. */
  lemma RoundTrip(i: int)
    requires ValidIndex(i)
    ensures PrevIndex(NextIndex(i)) == i && NextIndex(PrevIndex(i)) == i
  {
  }

  /** Pressing next k times. */
  function NextTimes(i: int, k: nat): int {
    if k == 0 then i else NextIndex(NextTimes(i, k - 1))
  }

  /** Pressing next k times from a valid index lands k places further on, around the circle. */
  lemma {:induction false} NextTimesRotates(i: int, k: nat)
    requires ValidIndex(i)
    ensures NextTimes(i, k) == (i + k) % Count
  {
    if k > 0 {
      NextTimesRotates(i, k - 1);
      var j := NextTimes(i, k - 1);
      assert ValidIndex(j);
      RotateStep(i + k - 1);
    }
  }

  lemma RotateStep(a: nat)
    ensures (a % Count + 1) % Count == (a + 1) % Count
  {
  }

  /** The carousel's `activeIndex` state. */
  class Carousel {
    var activeIndex: int

    ghost predicate Valid()
      reads this
    {
      ValidIndex(activeIndex)
    }

    /** `useState(0)`. */
    constructor ()
      ensures Valid() && activeIndex == 0
    {
      activeIndex := 0;
    }

    method NextTestimonial()
      requires Valid()
      modifies this
      ensures Valid() && activeIndex == NextIndex(old(activeIndex))
    {
      activeIndex := (activeIndex + 1) % Count;
    }

    method PrevTestimonial()
      requires Valid()
      modifies this
      ensures Valid() && activeIndex == PrevIndex(old(activeIndex))
    {
      activeIndex := (activeIndex - 1 + Count) % Count;
    }

    /** Clicking the dot drawn for testimonial `index`. */
    method SelectDot(index: int)
      requires ValidIndex(index)
      modifies this
      ensures Valid() && activeIndex == index
    {
      activeIndex := index;
    }
  }
}
