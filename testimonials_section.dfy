/** The testimonial carousel: three fixed testimonials, previous/next arrows that
    wrap at the ends, and one dot per testimonial. */
module TestimonialsSection {
  import Cyclic

  /** A testimonial, reduced to its id: the rest of the record only feeds the markup. */
  datatype Testimonial = Testimonial(id: nat)

  const Testimonials: seq<Testimonial> := [Testimonial(1), Testimonial(2), Testimonial(3)]

  /** `nextTestimonial`'s step: the last wraps to 0, any other moves forward. */
  function NextIndex(i: int, n: int): int
  {
    if i == n - 1 then 0 else i + 1
  }

  /** `prevTestimonial`'s step: 0 wraps to the last, any other moves back. */
  function PrevIndex(i: int, n: int): int
  {
    if i == 0 then n - 1 else i - 1
  }

  /** On an index in range the two steps are the modular successor and predecessor,
      so they stay in range and undo each other. */
  lemma StepsAreCyclic(i: int, n: nat)
    requires 0 <= i < n
    ensures NextIndex(i, n) == Cyclic.Succ(i, n) && PrevIndex(i, n) == Cyclic.Pred(i, n)
    ensures 0 <= NextIndex(i, n) < n && 0 <= PrevIndex(i, n) < n
    ensures PrevIndex(NextIndex(i, n), n) == i && NextIndex(PrevIndex(i, n), n) == i
  {
  }

  /** The testimonial reached after pressing "next" `k` times from `i`. */
  function PressNext(i: int, n: nat, k: nat): (r: int)
    requires 0 <= i < n
    ensures 0 <= r < n
  {
    if k == 0 then i else NextIndex(PressNext(i, n, k - 1), n)
  }

  /** Pressing "next" `k` times is `k` steps round the carousel. */
  lemma {:induction false} PressNextIsAdvance(i: int, n: nat, k: nat)
    requires 0 <= i < n
    ensures PressNext(i, n, k) == Cyclic.Advance(i, n, k)
  {
    if k > 0 {
      PressNextIsAdvance(i, n, k - 1);
    }
  }

  /** Pressing "next" once per testimonial comes back to the one shown first. */
  lemma PressNextFullCycle(i: int)
    requires 0 <= i < |Testimonials|
    ensures PressNext(i, |Testimonials|, |Testimonials|) == i
  {
    PressNextIsAdvance(i, |Testimonials|, |Testimonials|);
    Cyclic.FullCycle(i, |Testimonials|);
  }

  class TestimonialCarousel {
    var currentTestimonial: int

    /** Every handler keeps the index on a testimonial. */
    ghost predicate Valid()
      reads this
    {
      0 <= currentTestimonial < |Testimonials|
    }

    constructor ()
      ensures Valid() && currentTestimonial == 0
    {
      currentTestimonial := 0;
    }

    method NextTestimonial()
      requires Valid()
      modifies this
      ensures Valid() && currentTestimonial == NextIndex(old(currentTestimonial), |Testimonials|)
    {
      currentTestimonial := if currentTestimonial == |Testimonials| - 1 then 0 else currentTestimonial + 1;
    }

    method PrevTestimonial()
      requires Valid()
      modifies this
      ensures Valid() && currentTestimonial == PrevIndex(old(currentTestimonial), |Testimonials|)
    {
      currentTestimonial := if currentTestimonial == 0 then |Testimonials| - 1 else currentTestimonial - 1;
    }

    /** Dot `index`, one rendered per testimonial. */
    method SelectDot(index: int)
      requires 0 <= index < |Testimonials|
      modifies this
      ensures Valid() && currentTestimonial == index
    {
      currentTestimonial := index;
    }

    /** `currentData`: the testimonial on show, always defined under the invariant. */
    function CurrentData(): (t: Testimonial)
      reads this
      requires Valid()
      ensures t in Testimonials && t.id == currentTestimonial + 1
    {
      Testimonials[currentTestimonial]
    }
  }
}
