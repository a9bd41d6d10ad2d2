/** The colour scheme context (`contexts/Themecontext.jsx`). */
module ColourTheme {

  /** `prevTheme === 'light' ? 'dark' : 'light'` */
  function Toggled(theme: string): (r: string)
    ensures r == "dark" || r == "light"
    ensures r == "dark" <==> theme == "light"
  {
    if theme == "light" then "dark" else "light"
  }

  /** Toggling twice restores a light or dark theme; any other stored value becomes 'light', then 'dark'. */
  lemma ToggleTwice(theme: string)
    ensures theme == "light" || theme == "dark" ==> Toggled(Toggled(theme)) == theme
    ensures theme != "light" && theme != "dark" ==> Toggled(theme) == "light" && Toggled(Toggled(theme)) == "dark"
  {
  }

  class ThemeState {
    var theme: string

    /** With nothing stored, the theme is 'light'. */
    constructor()
      ensures theme == "light" && IsLight() && !IsDark()
    {
      theme := "light";
    }

    /** `isDark` */
    predicate IsDark()
      reads this
    {
      theme == "dark"
    }

    /** `isLight` */
    predicate IsLight()
      reads this
    {
      theme == "light"
    }

    /** The two flags are never both set. */
    lemma NotBoth()
      ensures !(IsDark() && IsLight())
    {
    }

    /** `toggleTheme()` */
    method ToggleTheme()
      modifies this
      ensures theme == Toggled(old(theme))
      ensures IsDark() <==> old(IsLight())
      ensures IsLight() <==> !old(IsLight())
    {
      theme := if theme == "light" then "dark" else "light";
    }

    /** `setLightTheme()` */
    method SetLightTheme()
      modifies this
      ensures theme == "light" && IsLight() && !IsDark()
    {
      theme := "light";
    }

    /** `setDarkTheme()` */
    method SetDarkTheme()
      modifies this
      ensures theme == "dark" && IsDark() && !IsLight()
    {
      theme := "dark";
    }
  }
}
