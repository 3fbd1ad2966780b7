/** The home page's hero carousel: three slides with modular next/previous,
    dot selection and an always-running autoplay, and the consultation form modal
    that the third slide's call-to-action opens. */
module HeroSection {
  import opened Wrappers
  import Cyclic

  /** A slide, reduced to what the handlers read: a call-to-action link, or none
      when the call-to-action opens the form instead. */
  datatype Slide = Slide(id: nat, link: Option<string>)

  const Slides: seq<Slide> := [Slide(1, Some("/du-an")), Slide(2, Some("/dich-vu")), Slide(3, None)]

  /** What a call-to-action click does besides changing the component's state. */
  datatype CtaEffect = Navigate(path: string) | FormToggled

  /** The call-to-action of exactly the third slide opens the form; the others navigate. */
  lemma OnlyThirdSlideOpensForm(k: nat)
    requires k < |Slides|
    ensures !TruthyString(Slides[k].link) <==> k == 2
  {
  }

  class HeroCarousel {
    var currentSlide: int
    var isFormOpen: bool

    /** Every handler keeps the slide index on a slide. */
    ghost predicate Valid()
      reads this
    {
      0 <= currentSlide < |Slides|
    }

    constructor ()
      ensures Valid() && currentSlide == 0 && !isFormOpen
    {
      currentSlide := 0;
      isFormOpen := false;
    }

    /** The "next" arrow: `(prev + 1) % slides.length`. */
    method NextSlide()
      requires Valid()
      modifies this`currentSlide
      ensures Valid() && currentSlide == Cyclic.Succ(old(currentSlide), |Slides|)
    {
      currentSlide := (currentSlide + 1) % |Slides|;
    }

    /** The "previous" arrow: `(prev - 1 + slides.length) % slides.length`. */
    method PrevSlide()
      requires Valid()
      modifies this`currentSlide
      ensures Valid() && currentSlide == Cyclic.Pred(old(currentSlide), |Slides|)
    {
      currentSlide := (currentSlide - 1 + |Slides|) % |Slides|;
    }

    /** One autoplay interval tick: the same step as the "next" arrow, with no pause
      state that could hold it back. */
    method AutoplayTick()
      requires Valid()
      modifies this`currentSlide
      ensures Valid() && currentSlide == Cyclic.Succ(old(currentSlide), |Slides|)
    {
      NextSlide();
    }

    /** A dot click: dot `index` is rendered for each slide. */
    method GoToSlide(index: int)
      requires 0 <= index < |Slides|
      modifies this`currentSlide
      ensures Valid() && currentSlide == index
    {
      currentSlide := index;
    }

    /** `toggleForm`. */
    method ToggleForm()
      modifies this`isFormOpen
      ensures isFormOpen == !old(isFormOpen)
    {
      isFormOpen := !isFormOpen;
    }

    /** A key press. The Escape listener is installed only while the form is open,
      so Escape closes an open form and nothing else reacts. */
    method KeyDown(key: string)
      modifies this`isFormOpen
      ensures isFormOpen == (old(isFormOpen) && key != "Escape")
    {
      if isFormOpen && key == "Escape" {
        ToggleForm();
      }
    }

    /** A click inside the open modal's backdrop; only a click on the backdrop
      itself, not on the dialog, closes the form. */
    method BackdropClick(onBackdropItself: bool)
      requires isFormOpen
      modifies this`isFormOpen
      ensures isFormOpen == !onBackdropItself
    {
      if onBackdropItself {
        ToggleForm();
      }
    }

    /** The open modal's close button. */
    method CloseButton()
      requires isFormOpen
      modifies this`isFormOpen
      ensures !isFormOpen
    {
      ToggleForm();
    }

    /** `handleCTAClick` on slide `k`: navigate to its link when it has one,
      otherwise toggle the form. */
    method CtaClick(k: nat) returns (effect: CtaEffect)
      requires k < |Slides|
      modifies this`isFormOpen
      ensures TruthyString(Slides[k].link) ==> effect == Navigate(Slides[k].link.value) && isFormOpen == old(isFormOpen)
      ensures !TruthyString(Slides[k].link) ==> effect == FormToggled && isFormOpen == !old(isFormOpen)
    {
      var slide := Slides[k];
      if slide.link.Some? && slide.link.value != "" {
        effect := Navigate(slide.link.value);
      } else {
        ToggleForm();
        effect := FormToggled;
      }
    }
  }
}
