/**
 * The dark/light theme switch of script.js and legacy/script.js (`initThemeToggle`): the body's
 * `data-theme` attribute, the `window.currentTheme` it is read from and recorded in, and the sun and
 * moon icons that show it.
 */
module Theme {
  import opened Wrappers

  /** `window.currentTheme || 'dark'`: a missing or empty saved theme falls back to dark. */
  function InitialTheme(saved: Option<string>): (t: string)
    ensures saved.Some? && saved.value != "" ==> t == saved.value
    ensures saved.None? || saved.value == "" ==> t == "dark"
  {
    if saved.Some? && saved.value != "" then saved.value else "dark"
  }

  /** The theme a click switches to: light from dark, dark from anything else. */
  function Toggled(t: string): (r: string)
    ensures r == "light" || r == "dark"
    ensures r == "light" <==> t == "dark"
  {
    if t == "dark" then "light" else "dark"
  }

  /** Two clicks restore the theme exactly when it was dark or light to begin with. */
  lemma ToggleTwice(t: string)
    ensures Toggled(Toggled(t)) == t <==> t == "dark" || t == "light"
  {
  }

  /** The theme state of one page. */
  class ThemeSwitch {
    const hasToggle: bool  // the `#theme-toggle` button exists
    const hasSun: bool     // the `.sun-icon` element exists
    const hasMoon: bool    // the `.moon-icon` element exists
    var dataTheme: string
    var currentTheme: Option<string>
    var sunActive: bool
    var moonActive: bool

    /** Each existing icon shows whether its theme is the one on the body. */
    ghost predicate Valid()
      reads this
    {
      && (hasSun ==> sunActive == (dataTheme == "light"))
      && (hasMoon ==> moonActive == (dataTheme == "dark"))
      && (!hasSun ==> !sunActive)
      && (!hasMoon ==> !moonActive)
    }

    /** `updateThemeIcons(theme)` */
    method ShowIcons()
      requires !hasSun ==> !sunActive
      requires !hasMoon ==> !moonActive
      modifies this
      ensures Valid()
      ensures dataTheme == old(dataTheme) && currentTheme == old(currentTheme)
    {
      if hasSun {
        sunActive := dataTheme == "light";
      }
      if hasMoon {
        moonActive := dataTheme == "dark";
      }
    }

    /** Page load: the saved theme, or dark, goes on the body and the icons follow it. */
    constructor (saved: Option<string>, hasToggle: bool, hasSun: bool, hasMoon: bool)
      ensures Valid()
      ensures this.hasToggle == hasToggle && this.hasSun == hasSun && this.hasMoon == hasMoon
      ensures dataTheme == InitialTheme(saved) && currentTheme == saved
    {
      this.hasToggle, this.hasSun, this.hasMoon := hasToggle, hasSun, hasMoon;
      dataTheme := InitialTheme(saved);
      currentTheme := saved;
      sunActive, moonActive := false, false;
      new;
      ShowIcons();
    }

    /** A click on the toggle; without the button there is no handler and nothing changes. */
    method Click()
      requires Valid()
      modifies this
      ensures Valid()
      ensures !hasToggle ==> unchanged(this)
      ensures hasToggle ==> dataTheme == Toggled(old(dataTheme)) && currentTheme == Some(dataTheme)
    {
      if !hasToggle {
        return;
      }
      dataTheme := Toggled(dataTheme);
      currentTheme := Some(dataTheme);
      ShowIcons();
    }
  }
}
