/**
 * The theme and language controls: the light/dark flip requested by the theme button, and the
 * language dropdown's open/closed state.
 */
module ThemeToggle {

  const Light := "light"
  const Dark := "dark"

  /** The theme the button requests: dark from light, light from anything else. */
  function ToggledTheme(theme: string): (r: string)
    ensures r == Light || r == Dark
    ensures r == Dark <==> theme == Light
  {
    if theme == Light then Dark else Light
  }

  /** From either known theme, two flips give the theme back. */
  lemma ToggleTwice(theme: string)
    requires theme == Light || theme == Dark
    ensures ToggledTheme(ToggledTheme(theme)) == theme
  {
  }

  /** An unknown stored value is not restored by two flips: it settles on dark. */
  lemma ToggleTwiceUnknown(theme: string)
    requires theme != Light && theme != Dark
    ensures ToggledTheme(ToggledTheme(theme)) == Dark
  {
  }

  /** The theme after `n` presses of the button. */
  function ToggledTimes(theme: string, n: nat): string {
    if n == 0 then theme else ToggledTheme(ToggledTimes(theme, n - 1))
  }

  /** From a known theme, an even number of presses restores it and an odd number flips it. */
  lemma {:induction false} ToggledTimesParity(theme: string, n: nat)
    requires theme == Light || theme == Dark
    ensures ToggledTimes(theme, n) == if n % 2 == 0 then theme else ToggledTheme(theme)
  {
    if n > 0 {
      ToggledTimesParity(theme, n - 1);
    }
  }

  /** After at least one press, from any start, the theme is light or dark. */
  lemma ToggledTimesKnown(theme: string, n: nat)
    requires n > 0
    ensures ToggledTimes(theme, n) == Light || ToggledTimes(theme, n) == Dark
  {
  }

  /** The two languages the dropdown offers, in display order. */
  const Languages: seq<string> := ["English", "Bangla"]

  /** One option button of the open dropdown, and whether it is marked as the current language. */
  datatype LanguageOption = LanguageOption(name: string, selected: bool)

  class LanguageMenu {
    var isLangOpen: bool
    /** The app-wide language, kept by the language context and set through this menu. */
    var language: string

    constructor (language: string)
      ensures !isLangOpen && this.language == language
    {
      isLangOpen := false;
      this.language := language;
    }

    /** The globe button. */
    method ToggleOpen()
      modifies this
      ensures isLangOpen == !old(isLangOpen) && language == old(language)
    {
      isLangOpen := !isLangOpen;
    }

    /** Choosing an option sets the language and closes the dropdown, whatever it was before. */
    method SelectLanguage(lang: string)
      modifies this
      ensures language == lang && !isLangOpen
    {
      language := lang;
      isLangOpen := false;
    }

    /** A mousedown anywhere: outside the dropdown's container it closes; inside it changes nothing. */
    method MouseDown(inside: bool)
      modifies this
      ensures isLangOpen == (old(isLangOpen) && inside) && language == old(language)
    {
      if !inside {
        isLangOpen := false;
      }
    }

    /** A click on the globe button: its mousedown is inside the container, then the click toggles. */
    method PressGlobe()
      modifies this
      ensures isLangOpen == !old(isLangOpen) && language == old(language)
    {
      MouseDown(true);
      ToggleOpen();
    }

    /**
     * The option buttons shown: none while closed; both languages while open, each marked
     * selected exactly when it is the current language.
     */
    function Options(): (r: seq<LanguageOption>)
      reads this
      ensures |r| == 0 <==> !isLangOpen
      ensures isLangOpen ==> |r| == |Languages| && forall k :: 0 <= k < |r| ==> r[k].name == Languages[k]
      ensures forall k :: 0 <= k < |r| ==> (r[k].selected <==> r[k].name == language)
      ensures forall j, k :: 0 <= j < k < |r| && r[j].selected ==> !r[k].selected
    {
      if !isLangOpen then []
      else [LanguageOption(Languages[0], language == Languages[0]), LanguageOption(Languages[1], language == Languages[1])]
    }
  }
}
