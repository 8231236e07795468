/**
 * The stateful part of src/main.js: the `data-theme` attribute, the stored
 * theme, the two logo images, and the single `vortexInstance` that a theme
 * change destroys and replaces.
 */
module PageState {
  import opened Optional
  import opened Particles
  import opened VortexField
  import opened Theme

  /** A logo image element; only its src is modelled. */
  class Logo {
    var src: string

    constructor (src: string)
      ensures this.src == src
    {
      this.src := src;
    }
  }

  class Page {
    /** The `data-theme` attribute of the document element. */
    var dataTheme: string
    /** localStorage's 'theme' entry. */
    var storedTheme: Option<string>
    /** #nav-logo and #footer-logo, null when the page has no such element. */
    const navLogo: Logo?
    const footerLogo: Logo?
    var vortexInstance: Vortex?

    /**
     * The module's top-level code at load: pick the initial theme, set the
     * attribute, update the logos and start a field in the hero.
     * `heroPresent` is what `document.querySelector('.hero')` finds now.
     */
    constructor Load(stored: Option<string>, navLogo: Logo?, footerLogo: Logo?, heroPresent: bool,
                     rect: Rect, draws: seq<real>, handle: FrameHandle, sin: real -> real)
      requires rect.width >= 0.0 && rect.height >= 0.0
      requires |draws| >= DrawsPerParticle * DefaultParticleCount
      modifies navLogo, footerLogo
      ensures dataTheme == InitialTheme(stored) && storedTheme == stored
      ensures this.navLogo == navLogo && this.footerLogo == footerLogo
      ensures navLogo != null ==> navLogo.src == LogoSrc(dataTheme)
      ensures footerLogo != null ==> footerLogo.src == LogoSrc(dataTheme)
      ensures vortexInstance != null <==> heroPresent
      ensures vortexInstance != null ==>
        && fresh(vortexInstance) && vortexInstance.Valid() && vortexInstance.Running()
        && vortexInstance.options == Defaults.(isDark := dataTheme == Dark)
    {
      this.navLogo := navLogo;
      this.footerLogo := footerLogo;
      storedTheme := stored;
      dataTheme := InitialTheme(stored);
      vortexInstance := null;
      new;
      UpdateLogos(dataTheme);
      InitializeVortex(dataTheme, heroPresent, rect, draws, handle, sin);
    }

    /** Point every logo that exists at the image for the theme. */
    method UpdateLogos(theme: string)
      modifies navLogo, footerLogo
      ensures navLogo != null ==> navLogo.src == LogoSrc(theme)
      ensures footerLogo != null ==> footerLogo.src == LogoSrc(theme)
    {
      var logoSrc := LogoSrc(theme);
      if navLogo != null { navLogo.src := logoSrc; }
      if footerLogo != null { footerLogo.src := logoSrc; }
    }

    /**
     * When the hero exists, make a new field for the theme the current
     * instance. `heroPresent` is what `document.querySelector('.hero')`
     * finds at this call.
     */
    method InitializeVortex(theme: string, heroPresent: bool,
                            rect: Rect, draws: seq<real>, handle: FrameHandle, sin: real -> real)
      requires rect.width >= 0.0 && rect.height >= 0.0
      requires |draws| >= DrawsPerParticle * DefaultParticleCount
      modifies this`vortexInstance
      ensures heroPresent ==>
        && vortexInstance != null && fresh(vortexInstance)
        && vortexInstance.Valid() && vortexInstance.Running()
        && vortexInstance.options == Defaults.(isDark := theme == Dark)
        && vortexInstance.width == rect.width && vortexInstance.height == rect.height
        && |vortexInstance.particles| == DefaultParticleCount
      ensures !heroPresent ==> vortexInstance == old(vortexInstance)
    {
      if heroPresent {
        vortexInstance := new Vortex(VortexOverrides(theme), rect, draws, handle, sin);
      }
    }

    /** Destroy the current field, if any, then start one for the theme. */
    method UpdateVortexTheme(theme: string, heroPresent: bool,
                             rect: Rect, draws: seq<real>, handle: FrameHandle, sin: real -> real)
      requires rect.width >= 0.0 && rect.height >= 0.0
      requires |draws| >= DrawsPerParticle * DefaultParticleCount
      requires vortexInstance != null ==> vortexInstance.Valid()
      modifies this`vortexInstance, vortexInstance
      ensures old(vortexInstance) != null ==>
        && old(vortexInstance).Valid() && old(vortexInstance).Destroyed()
        && old(vortexInstance).resizeListeners == old(vortexInstance.resizeListeners)
        && old(vortexInstance).width == old(vortexInstance.width)
        && old(vortexInstance).height == old(vortexInstance.height)
        && old(vortexInstance).particles == old(vortexInstance.particles)
        && old(vortexInstance).animationId == old(vortexInstance.animationId)
        && old(vortexInstance).canvas == old(vortexInstance.canvas)
      ensures heroPresent ==>
        && vortexInstance != null && fresh(vortexInstance)
        && vortexInstance.Valid() && vortexInstance.Running()
        && vortexInstance.options == Defaults.(isDark := theme == Dark)
      ensures !heroPresent ==> vortexInstance == old(vortexInstance)
      ensures vortexInstance != null ==> vortexInstance.Valid()
    {
      if vortexInstance != null {
        vortexInstance.Destroy();
      }
      InitializeVortex(theme, heroPresent, rect, draws, handle, sin);
    }

    /**
     * The theme button's click handler: toggle the attribute's theme, write
     * it to the attribute and to storage, update the logos and replace the field.
     */
    method ToggleTheme(heroPresent: bool, rect: Rect, draws: seq<real>, handle: FrameHandle, sin: real -> real)
      requires rect.width >= 0.0 && rect.height >= 0.0
      requires |draws| >= DrawsPerParticle * DefaultParticleCount
      requires vortexInstance != null ==> vortexInstance.Valid()
      modifies this`dataTheme, this`storedTheme, this`vortexInstance, navLogo, footerLogo, vortexInstance
      ensures dataTheme == Toggled(old(dataTheme)) && storedTheme == Some(dataTheme)
      ensures navLogo != null ==> navLogo.src == LogoSrc(dataTheme)
      ensures footerLogo != null ==> footerLogo.src == LogoSrc(dataTheme)
      ensures old(vortexInstance) != null ==>
        && old(vortexInstance).Valid() && old(vortexInstance).Destroyed()
        && old(vortexInstance).resizeListeners == old(vortexInstance.resizeListeners)
        && old(vortexInstance).width == old(vortexInstance.width)
        && old(vortexInstance).height == old(vortexInstance.height)
        && old(vortexInstance).particles == old(vortexInstance.particles)
        && old(vortexInstance).animationId == old(vortexInstance.animationId)
        && old(vortexInstance).canvas == old(vortexInstance.canvas)
      ensures heroPresent ==>
        && vortexInstance != null && fresh(vortexInstance)
        && vortexInstance.Valid() && vortexInstance.Running()
        && vortexInstance.options == Defaults.(isDark := dataTheme == Dark)
      ensures !heroPresent ==> vortexInstance == old(vortexInstance)
      ensures vortexInstance != null ==> vortexInstance.Valid()
    {
      var currentTheme := dataTheme;
      var newTheme := Toggled(currentTheme);
      dataTheme := newTheme;
      storedTheme := Some(newTheme);
      UpdateLogos(newTheme);
      UpdateVortexTheme(newTheme, heroPresent, rect, draws, handle, sin);
    }
  }

  /**
   * A page without a hero at its second click keeps the instance the first
   * click created, now destroyed; the click after that is still possible.
   */
  method HeroRemovedBetweenClicks(page: Page, rect: Rect, draws: seq<real>, handle: FrameHandle, sin: real -> real)
    requires rect.width >= 0.0 && rect.height >= 0.0
    requires |draws| >= DrawsPerParticle * DefaultParticleCount
    requires page.vortexInstance != null ==> page.vortexInstance.Valid()
    modifies page, page.navLogo, page.footerLogo, page.vortexInstance
  {
    page.ToggleTheme(true, rect, draws, handle, sin);
    var first := page.vortexInstance;
    page.ToggleTheme(false, rect, draws, handle, sin);
    assert page.vortexInstance == first && first != null && first.Destroyed();
    page.ToggleTheme(true, rect, draws, handle, sin);
  }
}
