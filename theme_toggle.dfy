/**
 * The theme toggle: a dark-mode flag, the `weather-theme` slot of local
 * storage, and the calls made to the `onThemeChange` callback.
 */
module ThemeToggle {

  import opened Wrappers

  /** The value stored under the `weather-theme` key for a flag. */
  function ThemeValue(isDarkMode: bool): (v: string)
    ensures v == "dark" || v == "light"
    ensures (v == "dark") == isDarkMode
  {
    if isDarkMode then "dark" else "light"
  }

  /**
   * The component's state: the flag, the storage slot, and the values
   * passed to `onThemeChange` so far, oldest first.
   */
  datatype ThemeState = ThemeState(isDarkMode: bool, saved: Option<string>, notified: seq<bool>)

  /** The load effect: `if (savedTheme)`, a present, non-empty value decides the flag. */
  function Loaded(s: ThemeState): (t: ThemeState)
    ensures t.saved == s.saved
    ensures s.saved.Some? && s.saved.value != "" ==>
      t.isDarkMode == (s.saved.value == "dark") && t.notified == s.notified + [t.isDarkMode]
    ensures s.saved == None || s.saved == Some("") ==> t == s
  {
    match s.saved
    case Some(theme) =>
      if theme == "" then s
      else
        var isDark := theme == "dark";
        s.(isDarkMode := isDark, notified := s.notified + [isDark])
    case None => s
  }

  /** toggleTheme: negate the flag, report it, and store it. */
  function Toggled(s: ThemeState): (t: ThemeState)
    ensures t.isDarkMode == !s.isDarkMode
    ensures t.notified == s.notified + [t.isDarkMode]
    ensures t.saved == Some(ThemeValue(t.isDarkMode))
  {
    var isDark := !s.isDarkMode;
    ThemeState(isDark, Some(ThemeValue(isDark)), s.notified + [isDark])
  }

  /** Storing a flag and loading it back gives the flag, whatever the state was. */
  lemma StoreRoundTrip(s: ThemeState, isDarkMode: bool)
    ensures Loaded(s.(saved := Some(ThemeValue(isDarkMode)))).isDarkMode == isDarkMode
  {
  }

  /**
   * A reload after a toggle: a fresh component over the toggled store loads
   * the toggled flag, reports it once, and leaves the store as it was.
   */
  lemma ReloadAfterToggle(s: ThemeState)
    ensures var reloaded := Loaded(ThemeState(true, Toggled(s).saved, []));
      && reloaded.isDarkMode == Toggled(s).isDarkMode
      && reloaded.saved == Toggled(s).saved
      && reloaded.notified == [Toggled(s).isDarkMode]
  {
  }

  /** Two toggles restore the flag and, if it was stored, the stored value. */
  lemma ToggleTwice(s: ThemeState)
    ensures Toggled(Toggled(s)).isDarkMode == s.isDarkMode
    ensures s.saved == Some(ThemeValue(s.isDarkMode)) ==> Toggled(Toggled(s)).saved == s.saved
    ensures Toggled(Toggled(s)).notified == s.notified + [!s.isDarkMode, s.isDarkMode]
  {
  }

  /** The icon on the button. */
  datatype ButtonIcon = SunIcon | MoonIcon

  class ThemeToggle {
    var isDarkMode: bool
    /** `localStorage['weather-theme']`. */
    var saved: Option<string>
    /** The arguments of the `onThemeChange` calls so far. */
    var notified: seq<bool>

    function State(): ThemeState
      reads this
    {
      ThemeState(isDarkMode, saved, notified)
    }

    /** `useState(true)`, over whatever the store already holds. */
    constructor (stored: Option<string>)
      ensures State() == ThemeState(true, stored, [])
    {
      isDarkMode, saved, notified := true, stored, [];
    }

    /** The mount effect that reads the saved theme. */
    method LoadSavedTheme()
      modifies this
      ensures State() == Loaded(old(State()))
    {
      if saved.Some? && saved.value != "" {
        var isDark := saved.value == "dark";
        isDarkMode := isDark;
        notified := notified + [isDark];
      }
    }

    /** The button's click handler. */
    method ToggleTheme()
      modifies this
      ensures State() == Toggled(old(State()))
    {
      var newDarkMode := !isDarkMode;
      isDarkMode := newDarkMode;
      notified := notified + [newDarkMode];
      saved := Some(if newDarkMode then "dark" else "light");
    }

    /** The button offers the sun in dark mode and the moon in light mode. */
    function Icon(): (icon: ButtonIcon)
      reads this
      ensures icon == SunIcon <==> isDarkMode
      ensures icon == MoonIcon <==> !isDarkMode
    {
      if isDarkMode then SunIcon else MoonIcon
    }
  }
}
