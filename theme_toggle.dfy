/** The light/dark switch (client/src/components/ThemeToggle.jsx): a state
    flag, the "theme" entry of local storage and the class list of the
    document's root element, kept in step by the mount effect and the toggle. */
module ThemeToggle {
  import opened Wrappers

  const DarkClass: string := "dark"

  /** The three places the theme lives. */
  datatype Theme = Theme(isDarkMode: bool, storedTheme: Option<string>, rootClasses: set<string>)

  /** All three agree. */
  predicate Consistent(t: Theme)
  {
    && (t.isDarkMode <==> DarkClass in t.rootClasses)
    && (t.isDarkMode <==> t.storedTheme == Some("dark"))
  }

  /** The mount effect (ThemeToggle.jsx:21-36): dark exactly when the stored
      theme is "dark"; storage is only read. */
  function Mounted(t: Theme): (r: Theme)
    ensures r.isDarkMode <==> t.storedTheme == Some("dark")
    ensures r.storedTheme == t.storedTheme
    ensures r.rootClasses - {DarkClass} == t.rootClasses - {DarkClass}
    ensures Consistent(r)
  {
    if t.storedTheme == Some("dark") then Theme(true, t.storedTheme, t.rootClasses + {DarkClass})
    else Theme(false, t.storedTheme, t.rootClasses - {DarkClass})
  }

  /** `toggleTheme` (ThemeToggle.jsx:39-58). */
  function Toggled(t: Theme): (r: Theme)
    ensures r.isDarkMode == !t.isDarkMode
    ensures t.isDarkMode ==> r.storedTheme == Some("light") && DarkClass !in r.rootClasses
    ensures !t.isDarkMode ==> r.storedTheme == Some("dark") && DarkClass in r.rootClasses
    ensures r.rootClasses - {DarkClass} == t.rootClasses - {DarkClass}
  {
    if t.isDarkMode then Theme(false, Some("light"), t.rootClasses - {DarkClass})
    else Theme(true, Some("dark"), t.rootClasses + {DarkClass})
  }

  /** A toggle always leaves the three in agreement, whatever it started from. */
  lemma ToggleEstablishesConsistency(t: Theme)
    ensures Consistent(Toggled(t))
  {
  }

  /** Two toggles bring back the flag and the class list; storage then holds
      the theme spelled out. */
  lemma ToggleTwice(t: Theme)
    requires Consistent(t)
    ensures Toggled(Toggled(t)).isDarkMode == t.isDarkMode
    ensures Toggled(Toggled(t)).rootClasses == t.rootClasses
    ensures Toggled(Toggled(t)).storedTheme == Some(if t.isDarkMode then "dark" else "light")
  {
  }

  /** Storage survives a reload: mounting again after a toggle gives back the
      mode the toggle chose. */
  lemma ToggleSurvivesReload(t: Theme)
    ensures Mounted(Toggled(t)).isDarkMode == Toggled(t).isDarkMode
  {
  }

  datatype Icon = Sun | Moon

  /** The button shows the Sun in dark mode (ThemeToggle.jsx:72). */
  function ButtonIcon(isDarkMode: bool): (icon: Icon)
    ensures icon == Sun <==> isDarkMode
  {
    if isDarkMode then Sun else Moon
  }

  /** The component, its storage and the document it styles. */
  class ThemeToggle {
    var isDarkMode: bool
    var storedTheme: Option<string>
    var rootClasses: set<string>

    function State(): Theme
      reads this
    {
      Theme(isDarkMode, storedTheme, rootClasses)
    }

    /** First render: dark mode, before the effect has looked at storage. */
    constructor (storedTheme: Option<string>, rootClasses: set<string>)
      ensures State() == Theme(true, storedTheme, rootClasses)
    {
      isDarkMode := true;
      this.storedTheme := storedTheme;
      this.rootClasses := rootClasses;
    }

    /** The mount effect. */
    method Mount()
      modifies this
      ensures State() == Mounted(old(State()))
    {
      var theme := storedTheme;
      if theme == Some("dark") {
        isDarkMode := true;
        rootClasses := rootClasses + {DarkClass};
      } else {
        isDarkMode := false;
        rootClasses := rootClasses - {DarkClass};
      }
    }

    /** A click on the button. */
    method Toggle()
      modifies this
      ensures State() == Toggled(old(State()))
    {
      if isDarkMode {
        rootClasses := rootClasses - {DarkClass};
        storedTheme := Some("light");
        isDarkMode := false;
      } else {
        rootClasses := rootClasses + {DarkClass};
        storedTheme := Some("dark");
        isDarkMode := true;
      }
    }
  }

  /** A visit: the page starts dark, mounts with nothing stored and turns light,
      then a click turns it dark and stores "dark". */
  method FirstVisit() returns (beforeMount: Icon, afterMount: Icon, afterClick: Icon, stored: Option<string>)
    ensures beforeMount == Sun && afterMount == Moon && afterClick == Sun
    ensures stored == Some("dark")
  {
    var toggle := new ThemeToggle(None, {});
    beforeMount := ButtonIcon(toggle.isDarkMode);
    toggle.Mount();
    afterMount := ButtonIcon(toggle.isDarkMode);
    toggle.Toggle();
    afterClick := ButtonIcon(toggle.isDarkMode);
    stored := toggle.storedTheme;
  }
}
