/** The navigation bar: the hidden gesture (five taps on the logo while on
    the home view open the configuration panel) and the buttons that switch
    views. The bar keeps the tap count; the application's current view,
    which the bar reads and sets, is held beside it. */
module NavbarUi {
  import opened Types

  /** Taps on the logo, in a row on the home view, that open the panel. */
  const SecretTaps: nat := 5

  /** The view and the tap count. */
  datatype NavState = NavState(view: View, clickCount: nat)

  /** The state after one logo tap: on home, one more tap, and the
      configuration panel with the count back to 0 once it reaches five;
      on any other view, back home with the count at 0. */
  function LogoTap(s: NavState): (r: NavState)
    ensures s.view != Home ==> r == NavState(Home, 0)
    ensures s.view == Home && s.clickCount + 1 < SecretTaps ==> r == NavState(Home, s.clickCount + 1)
    ensures s.view == Home && s.clickCount + 1 >= SecretTaps ==> r == NavState(Config, 0)
  {
    if s.view == Home then
      var newCount := s.clickCount + 1;
      if newCount >= SecretTaps then NavState(Config, 0) else NavState(Home, newCount)
    else
      NavState(Home, 0)
  }

  /** The state after `n` logo taps: the count stays below five, and
      after at least one tap a non-zero count is only ever seen on home. */
  function Taps(s: NavState, n: nat): (r: NavState)
    ensures s.clickCount < SecretTaps ==> r.clickCount < SecretTaps
    ensures n > 0 && r.clickCount > 0 ==> r.view == Home
    decreases n
  {
    if n == 0 then s else Taps(LogoTap(s), n - 1)
  }

  /** The count never reaches five: a tap from a count below five leaves
      a count below five, and only the home view counts. */
  lemma TapKeepsCountBelow(s: NavState)
    requires s.clickCount < SecretTaps
    ensures LogoTap(s).clickCount < SecretTaps
    ensures LogoTap(s).clickCount > 0 ==> LogoTap(s).view == Home
  {
  }

  /** From home with count `c`, `k` taps that stay below five count up to
      `c + k` and stay on home. */
  lemma {:induction false} TapsCountUp(c: nat, k: nat)
    requires c + k < SecretTaps
    ensures Taps(NavState(Home, c), k) == NavState(Home, c + k)
    decreases k
  {
    if k > 0 {
      assert LogoTap(NavState(Home, c)) == NavState(Home, c + 1);
      TapsCountUp(c + 1, k - 1);
    }
  }

  /** From home with a count of 0, four taps stay on home and the fifth
      opens the configuration panel, with the count back to 0. */
  lemma SecretGesture()
    ensures Taps(NavState(Home, 0), SecretTaps - 1) == NavState(Home, SecretTaps - 1)
    ensures Taps(NavState(Home, 0), SecretTaps) == NavState(Config, 0)
  {
    TapsCountUp(0, SecretTaps - 1);
    assert Taps(NavState(Home, 0), SecretTaps) == Taps(Taps(NavState(Home, 0), 1), SecretTaps - 1) by {
      TapsSplit(NavState(Home, 0), 1, SecretTaps - 1);
    }
    TapsSplit(NavState(Home, 0), SecretTaps - 1, 1);
  }

  /** `m + n` taps are `m` taps followed by `n` taps. */
  lemma {:induction false} TapsSplit(s: NavState, m: nat, n: nat)
    ensures Taps(s, m + n) == Taps(Taps(s, m), n)
    decreases m
  {
    if m > 0 {
      TapsSplit(LogoTap(s), m - 1, n);
    }
  }

  class Navbar {
    var clickCount: nat
    var currentView: View

    /** The state the two fields hold. */
    function State(): NavState
      reads this
    {
      NavState(currentView, clickCount)
    }

    /** The bar as first rendered, over the view the application shows. */
    constructor (view: View)
      ensures State() == NavState(view, 0)
    {
      clickCount := 0;
      currentView := view;
    }

    /** `handleLogoClick`. */
    method HandleLogoClick()
      modifies this
      ensures State() == LogoTap(old(State()))
      ensures old(clickCount) < SecretTaps ==> clickCount < SecretTaps
    {
      if currentView == Home {
        var newCount := clickCount + 1;
        clickCount := newCount;
        if newCount >= SecretTaps {
          currentView := Config;
          clickCount := 0;
        }
      } else {
        currentView := Home;
        clickCount := 0;
      }
    }

    /** A navigation button: home, market or create (the panel has none).
        It sets the view and leaves the tap count alone. */
    method NavButton(target: View)
      requires target != Config
      modifies this`currentView
      ensures currentView == target && clickCount == old(clickCount)
    {
      currentView := target;
    }
  }
}
