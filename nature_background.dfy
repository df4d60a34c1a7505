/**
 * The animated page background: it owns the current theme, keeps the root element's `dark`
 * class and the stored `theme` preference in step with it, picks the gradient palette, and
 * owns the FAQ modal's open flag.
 */
module NatureBackground {
  import opened ThemeToggle
  import Faq
  import opened Wrappers

  /** The storage key of the theme preference. */
  const ThemeKey := "theme"
  /** How many gradient layers the background stacks. */
  const LayerCount: nat := 8

  /** `localStorage.getItem('theme') || 'dark'`: a missing or empty stored value falls back to dark. */
  function InitialTheme(stored: map<string, string>): (r: string)
    ensures r != ""
    ensures ThemeKey in stored && stored[ThemeKey] != "" ==> r == stored[ThemeKey]
    ensures !(ThemeKey in stored && stored[ThemeKey] != "") ==> r == Dark
  {
    if ThemeKey in stored && stored[ThemeKey] != "" then stored[ThemeKey] else Dark
  }

  /** The root element carries the `dark` class exactly for the theme "dark". */
  predicate HasDarkClass(theme: string) {
    theme == Dark
  }

  datatype Palette = LightPalette | DarkPalette

  /** The light gradient set for the theme "light", the dark set for every other value. */
  function PaletteFor(theme: string): (p: Palette)
    ensures p == LightPalette <==> theme == Light
  {
    if theme == Light then LightPalette else DarkPalette
  }

  /** One rendered gradient layer: its palette and its 1-based position class. */
  datatype Layer = Layer(palette: Palette, position: nat)

  /** The layers rendered for a theme: eight, numbered 1 to 8, all from the theme's palette. */
  function GradientLayers(theme: string): (r: seq<Layer>)
    ensures |r| == LayerCount
    ensures forall k :: 0 <= k < |r| ==> r[k].position == k + 1
    ensures forall k :: 0 <= k < |r| ==> (r[k].palette == LightPalette <==> theme == Light)
  {
    var palette := PaletteFor(theme);
    seq(LayerCount, (k: nat) => Layer(palette, k + 1))
  }

  /** For the two known themes, the `dark` class and the dark palette go together. */
  lemma KnownThemeConsistent(theme: string)
    requires theme == Light || theme == Dark
    ensures HasDarkClass(theme) <==> PaletteFor(theme) == DarkPalette
  {
  }

  /** Any other stored value gets no `dark` class yet the dark gradients. */
  lemma UnknownThemeMixed(theme: string)
    requires theme != Light && theme != Dark
    ensures !HasDarkClass(theme) && PaletteFor(theme) == DarkPalette
  {
  }

  /** A stored preference equal to a non-empty theme is read back as that theme on the next load. */
  lemma ReloadRestoresTheme(theme: string, stored: map<string, string>)
    requires theme != "" && ThemeKey in stored && stored[ThemeKey] == theme
    ensures InitialTheme(stored) == theme
  {
  }

  class Background {
    var theme: string
    /** Whether `document.documentElement` has the `dark` class. */
    var rootDark: bool
    /** The browser's local storage. */
    var storage: map<string, string>
    var isFaqOpen: bool
    const faq: Faq.FaqModal

    /** The theme effect has run for the current theme, and the modal's scroll lock follows its flag. */
    ghost predicate Valid()
      reads this, faq
    {
      && theme != ""
      && rootDark == HasDarkClass(theme)
      && ThemeKey in storage && storage[ThemeKey] == theme
      && faq.Valid()
      && faq.bodyOverflow == Faq.OverflowFor(isFaqOpen)
    }

    /** Mounting: read the stored theme, run the theme effect, mount a closed FAQ modal. */
    constructor (stored: map<string, string>)
      ensures Valid() && fresh(faq)
      ensures theme == InitialTheme(stored) && !isFaqOpen && faq.openIndex == 0
      ensures storage == stored[ThemeKey := theme]
    {
      theme := InitialTheme(stored);
      rootDark := InitialTheme(stored) == Dark;
      storage := stored[ThemeKey := InitialTheme(stored)];
      isFaqOpen := false;
      faq := new Faq.FaqModal(false);
    }

    /** The theme button: request the flipped theme, then the theme effect updates root class and storage. */
    method ToggleTheme()
      requires Valid()
      modifies this
      ensures Valid()
      ensures theme == ToggledTheme(old(theme))
      ensures storage == old(storage)[ThemeKey := theme]
      ensures isFaqOpen == old(isFaqOpen)
      ensures InitialTheme(storage) == theme
    {
      theme := ToggledTheme(theme);
      if theme == Dark {
        rootDark := true;
      } else {
        rootDark := false;
      }
      storage := storage[ThemeKey := theme];
    }

    /** The FAQ button opens the modal and its effect locks page scrolling. */
    method OpenFaq()
      requires Valid()
      modifies this, faq
      ensures Valid()
      ensures isFaqOpen && faq.bodyOverflow == Faq.Hidden
      ensures theme == old(theme) && storage == old(storage) && faq.openIndex == old(faq.openIndex)
    {
      isFaqOpen := true;
      faq.SyncOverflow(true);
    }

    /** `onClose` (backdrop, close button or Escape) closes the modal and its effect unlocks scrolling. */
    method CloseFaq()
      requires Valid()
      modifies this, faq
      ensures Valid()
      ensures !isFaqOpen && faq.bodyOverflow == Faq.Unset
      ensures theme == old(theme) && storage == old(storage) && faq.openIndex == old(faq.openIndex)
    {
      isFaqOpen := false;
      faq.SyncOverflow(false);
    }

    /** A keydown reaches the modal's listener, which is registered for as long as the modal is mounted. */
    method KeyDown(key: string)
      requires Valid()
      modifies this, faq
      ensures Valid()
      ensures isFaqOpen == (old(isFaqOpen) && !Faq.ClosesOnKey(key))
      ensures theme == old(theme) && storage == old(storage) && faq.openIndex == old(faq.openIndex)
    {
      if Faq.ClosesOnKey(key) {
        CloseFaq();
      }
    }

    /** What the modal shows: nothing while closed, else the one-expanded-at-most entry list. */
    function FaqView(): (r: Option<seq<bool>>)
      reads this, faq
      ensures r.None? <==> !isFaqOpen
      ensures r.Some? ==> forall k :: 0 <= k < |r.value| ==> (r.value[k] <==> faq.openIndex == k)
    {
      faq.Render(isFaqOpen)
    }
  }
}
