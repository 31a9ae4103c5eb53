/**
 * The landing page's hidden switch: five clicks on the logo toggle the
 * "gravity" look, which adds `grayscale invert` to the page's root classes.
 *
 * Each click is handled after the previous one has been rendered, so the
 * handler's closure sees the current `gravityEnabled`.
 */
module Landing {
  const ClicksToToggle: nat := 5

  datatype Logo = Logo(clickCount: nat, gravityEnabled: bool)

  /** One logo click: the count goes up by one; on reaching five it resets to 0 and gravity flips. */
  function Click(s: Logo): Logo {
    var newCount := s.clickCount + 1;
    if newCount == ClicksToToggle then Logo(0, !s.gravityEnabled)
    else Logo(newCount, s.gravityEnabled)
  }

  /** `n` clicks in a row. */
  function Clicks(s: Logo, n: nat): Logo
    decreases n
  {
    if n == 0 then s else Clicks(Click(s), n - 1)
  }

  /** The root element's class tokens. */
  function RootClasses(gravityEnabled: bool): seq<string> {
    ["min-h-screen", "bg-background", "text-foreground", "overflow-x-hidden",
     "selection:bg-primary/20", "selection:text-primary"]
      + (if gravityEnabled then ["grayscale", "invert"] else [])
  }

  /** The count stays in 0..4 when it starts there. */
  lemma ClickKeepsCountInRange(s: Logo)
    requires s.clickCount < ClicksToToggle
    ensures Click(s).clickCount < ClicksToToggle
  {
  }

  /** A click below the fifth adds one and leaves gravity alone; the fifth resets and toggles. */
  lemma ClickCases(s: Logo)
    ensures s.clickCount + 1 < ClicksToToggle ==> Click(s) == Logo(s.clickCount + 1, s.gravityEnabled)
    ensures s.clickCount + 1 == ClicksToToggle ==> Click(s) == Logo(0, !s.gravityEnabled)
  {
  }

  /** From a zero count, five clicks toggle gravity and bring the count back to zero. */
  lemma FiveClicksToggle(gravityEnabled: bool)
    ensures Clicks(Logo(0, gravityEnabled), ClicksToToggle) == Logo(0, !gravityEnabled)
  {
    var s := Logo(0, gravityEnabled);
    assert Clicks(Click(Click(Click(Click(Click(s))))), 0) == Logo(0, !gravityEnabled);
  }

  /** Fewer than five clicks from zero count up without touching gravity. */
  lemma {:induction false} FewClicksCount(gravityEnabled: bool, n: nat)
    requires n < ClicksToToggle
    ensures Clicks(Logo(0, gravityEnabled), n) == Logo(n, gravityEnabled)
  {
    if n > 0 {
      ClicksSplit(Logo(0, gravityEnabled), n - 1, 1);
      FewClicksCount(gravityEnabled, n - 1);
    }
  }

  lemma {:induction false} ClicksSplit(s: Logo, m: nat, n: nat)
    ensures Clicks(s, m + n) == Clicks(Clicks(s, m), n)
    decreases m
  {
    if m > 0 {
      ClicksSplit(Click(s), m - 1, n);
    }
  }

  /** Starting from (0, off), after 5k clicks the count is 0 and gravity is on iff k is odd. */
  lemma {:induction false} FiveKClicks(k: nat)
    ensures Clicks(Logo(0, false), ClicksToToggle * k) == Logo(0, k % 2 == 1)
  {
    if k > 0 {
      ClicksSplit(Logo(0, false), ClicksToToggle * (k - 1), ClicksToToggle);
      FiveKClicks(k - 1);
      FiveClicksToggle((k - 1) % 2 == 1);
    }
  }

  /** The gravity look's classes are present exactly when gravity is on. */
  lemma GravityClasses(gravityEnabled: bool)
    ensures "grayscale" in RootClasses(gravityEnabled) <==> gravityEnabled
    ensures "invert" in RootClasses(gravityEnabled) <==> gravityEnabled
  {
    var base := RootClasses(false);
    assert "grayscale" !in base && "invert" !in base by {
      assert forall i :: 0 <= i < |base| ==> base[i] != "grayscale" && base[i] != "invert";
    }
    if gravityEnabled {
      assert RootClasses(true)[|base|] == "grayscale";
      assert RootClasses(true)[|base| + 1] == "invert";
    }
  }

  class LandingPage {
    var clickCount: nat
    var gravityEnabled: bool

    ghost predicate Valid()
      reads this
    {
      clickCount < ClicksToToggle
    }

    function State(): Logo
      reads this
    {
      Logo(clickCount, gravityEnabled)
    }

    constructor ()
      ensures Valid() && State() == Logo(0, false)
    {
      clickCount, gravityEnabled := 0, false;
    }

    /** `handleLogoClick` */
    method HandleLogoClick()
      requires Valid()
      modifies this
      ensures Valid()
      ensures State() == Click(old(State()))
    {
      var newCount := clickCount + 1;
      if newCount == ClicksToToggle {
        gravityEnabled := !gravityEnabled;
        clickCount := 0;
      } else {
        clickCount := newCount;
      }
    }

    function Classes(): seq<string>
      reads this
    {
      RootClasses(gravityEnabled)
    }
  }
}
