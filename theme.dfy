/**
 * The pure rules of src/main.js: the initial theme, the toggle, the logo
 * choice, the options handed to a new Vortex, and the hero fade on scroll.
 */
module Theme {
  import opened Optional
  import Particles

  const Light: string := "light"
  const Dark: string := "dark"

  const WhiteLogo: string := "/assets/white-no-bg.png"
  const BlackLogo: string := "/assets/black-no-bg.png"

  /**
   * `localStorage.getItem('theme') || 'light'`: a missing entry or the empty
   * string (both falsy) falls back to light; any other stored value is used as is.
   */
  function InitialTheme(stored: Option<string>): (t: string)
    ensures stored == None || stored == Some("") ==> t == Light
    ensures stored.Some? && stored.value != "" ==> t == stored.value
  {
    match stored
    case Some(s) => if s != "" then s else Light
    case None => Light
  }

  /** The click handler's rule: light goes to dark, every other value to light. */
  function Toggled(current: string): (t: string)
    ensures t == Dark <==> current == Light
    ensures t == Light <==> current != Light
  {
    if current == Light then Dark else Light
  }

  /** On the two themes the page sets, toggling twice restores the theme. */
  lemma ToggleInvolution(t: string)
    requires t == Light || t == Dark
    ensures Toggled(Toggled(t)) == t
  {
  }

  /** After one toggle the page is on one of its two themes, whatever the attribute held. */
  lemma ToggleSettles(current: string)
    ensures Toggled(current) == Light || Toggled(current) == Dark
    ensures Toggled(Toggled(Toggled(current))) == Toggled(current)
  {
  }

  /** updateLogos' choice of image. */
  function LogoSrc(theme: string): (src: string)
    ensures src == WhiteLogo <==> theme == Dark
    ensures src == BlackLogo <==> theme != Dark
  {
    if theme == Dark then WhiteLogo else BlackLogo
  }

  /** The options initializeVortex passes: only isDark, set exactly for the dark theme. */
  function VortexOverrides(theme: string): (o: Particles.Overrides)
    ensures Particles.Merge(o) == Particles.Defaults.(isDark := theme == Dark)
  {
    Particles.Overrides(Some(theme == Dark), None, None, None)
  }

  /**
   * The hero content's opacity for a scroll offset and a hero height; None
   * when JavaScript's arithmetic yields NaN or Infinity, which the style
   * property rejects. That happens only for a zero-height hero: 0/0 is NaN,
   * a negative offset over 0 is -Infinity so 1 minus it is Infinity, while a
   * positive offset over 0 gives Infinity and so opacity 0.
   */
  function ScrollOpacity(scroll: real, heroHeight: real): (r: Option<real>)
    requires heroHeight >= 0.0
    ensures r.Some? ==> r.value >= 0.0
    ensures heroHeight > 0.0 ==> r.Some?
    ensures scroll >= 0.0 && r.Some? ==> r.value <= 1.0
  {
    var fadePoint := heroHeight * 0.5;
    if fadePoint > 0.0 then
      var raw := 1.0 - scroll / fadePoint;
      Some(if raw < 0.0 then 0.0 else raw)
    else if scroll > 0.0 then Some(0.0)
    else None
  }

  /**
   * The content is fully faded once the scroll reaches half the hero's
   * height and still partly visible before that; a zero-height hero with
   * no downward scroll gives no opacity at all.
   */
  lemma ScrollFadeEnds(scroll: real, heroHeight: real)
    requires heroHeight >= 0.0
    ensures scroll >= heroHeight * 0.5 && scroll > 0.0 ==> ScrollOpacity(scroll, heroHeight) == Some(0.0)
    ensures heroHeight > 0.0 && 0.0 <= scroll < heroHeight * 0.5 ==>
      ScrollOpacity(scroll, heroHeight).Some? && 0.0 < ScrollOpacity(scroll, heroHeight).value
    ensures heroHeight == 0.0 && scroll <= 0.0 ==> ScrollOpacity(scroll, heroHeight) == None
  {
    var f := heroHeight * 0.5;
    if f > 0.0 {
      var q := scroll / f;
      assert (q - 1.0) * f == scroll - f;
      ProductSign(q - 1.0, f);
    }
  }

  /** Multiplying by a positive factor keeps the sign. */
  lemma ProductSign(x: real, f: real)
    requires f > 0.0
    ensures x * f >= 0.0 <==> x >= 0.0
  {
    if x < 0.0 {
      assert x * f == -((-x) * f);
    }
  }

  /** Scrolling further never makes the hero content more opaque. */
  lemma ScrollFadeMonotone(s1: real, s2: real, heroHeight: real)
    requires heroHeight > 0.0 && s1 <= s2
    ensures ScrollOpacity(s2, heroHeight).value <= ScrollOpacity(s1, heroHeight).value
  {
    var f := heroHeight * 0.5;
    assert s2 / f - s1 / f == (s2 - s1) / f;
  }

  /** The upward parallax shift of the hero content: half the scroll offset. */
  function ScrollOffset(scroll: real): (up: real)
    ensures up + up == scroll
  {
    scroll * 0.5
  }

  /**
   * The handler's two formulas agree on when the content is gone: it is
   * fully faded exactly when it has been lifted by a quarter of the hero's
   * height or more.
   */
  lemma FadedWhenLifted(scroll: real, heroHeight: real)
    requires heroHeight > 0.0
    ensures ScrollOpacity(scroll, heroHeight) == Some(0.0) <==> ScrollOffset(scroll) >= heroHeight * 0.25
  {
    var f := heroHeight * 0.5;
    var q := scroll / f;
    assert (q - 1.0) * f == scroll - f;
    ProductSign(q - 1.0, f);
  }
}
