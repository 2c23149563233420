/** src/pages/Onboarding.tsx: three introductory slides, a next button that
    ends on the login page, and a skip link. `navigate` is a result. */
module Onboarding {
  import opened Js

  datatype Slide = Slide(title: string, description: string)

  const Slides: seq<Slide> := [
    Slide("Assess Your Potential", "Discover your home's rainwater harvesting potential with just a few simple steps."),
    Slide("Save Water & Money", "Reduce your water bills and contribute to water conservation in your community."),
    Slide("Environmental Impact", "Help recharge groundwater and reduce stormwater runoff in your area.")
  ]

  const LoginRoute := "/login"

  class OnboardingFlow {
    var currentSlide: int

    predicate Valid()
      reads this
    {
      0 <= currentSlide < |Slides|
    }

    constructor ()
      ensures currentSlide == 0 && Valid()
    {
      currentSlide := 0;
    }

    /** `nextSlide`: the next slide, or the login page after the last. */
    method NextSlide() returns (navigate: Option<string>)
      requires Valid()
      modifies this
      ensures Valid()
      ensures old(currentSlide) < |Slides| - 1 ==> currentSlide == old(currentSlide) + 1 && navigate.None?
      ensures old(currentSlide) == |Slides| - 1 ==> currentSlide == old(currentSlide) && navigate == Some(LoginRoute)
    {
      navigate := None;
      if currentSlide < |Slides| - 1 {
        currentSlide := currentSlide + 1;
      } else {
        navigate := Some(LoginRoute);
      }
    }

    /** `skipToLogin`: straight to the login page from any slide. */
    method SkipToLogin() returns (navigate: Option<string>)
      ensures navigate == Some(LoginRoute)
    {
      navigate := Some(LoginRoute);
    }

    function Current(): (s: Slide)
      reads this
      requires Valid()
      ensures s in Slides
    {
      Slides[currentSlide]
    }

    /** The label of the main button. */
    function ButtonLabel(): (caption: string)
      reads this
      ensures caption == "Get Started" <==> currentSlide == |Slides| - 1
      ensures caption != "Get Started" ==> caption == "Next"
    {
      if currentSlide == |Slides| - 1 then "Get Started" else "Next"
    }

    /** The progress dot of `index` is the wide one. */
    predicate DotIsWide(index: int)
      reads this
      ensures Valid() && DotIsWide(index) ==> 0 <= index < |Slides| && Current() == Slides[index]
    {
      index == currentSlide
    }
  }
}
