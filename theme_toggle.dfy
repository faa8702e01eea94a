/** The theme button of src/components/theme/ThemeToggleButton.tsx: the initial theme is
    resolved once on mount, each click flips it, and an effect mirrors it into the
    document's `dark` class and the stored `theme` entry. */
module ThemeToggle {
  import opened Js

  const Dark: string := "dark"
  const Light: string := "light"

  /** The chain of the mount effect: a stored theme (any non-empty string), else `dark`
      when the system prefers dark or the document already has the `dark` class, else
      `light`. */
  function InitialTheme(stored: Option<string>, prefersDark: bool, isDomDark: bool): string
  {
    if stored.Some? && stored.value != "" then stored.value
    else if prefersDark then Dark
    else if isDomDark then Dark
    else Light
  }

  /** A stored theme wins; without one, the result is `dark` exactly when the system or the
      document says dark, and `light` otherwise. */
  lemma InitialChain(stored: Option<string>, prefersDark: bool, isDomDark: bool)
    ensures stored.Some? && stored.value != "" ==> InitialTheme(stored, prefersDark, isDomDark) == stored.value
    ensures stored.None? || stored == Some("") ==>
      (InitialTheme(stored, prefersDark, isDomDark) == Dark <==> prefersDark || isDomDark)
      && (InitialTheme(stored, prefersDark, isDomDark) == Light <==> !prefersDark && !isDomDark)
  {
  }

  /** The catch block: the document class alone decides. */
  function FallbackTheme(isDomDark: bool): (r: string)
    ensures r == Dark <==> isDomDark
    ensures r == Light <==> !isDomDark
  {
    if isDomDark then Dark else Light
  }

  /** `toggleTheme`: `light` becomes `dark`, anything else `light`. */
  function Toggled(theme: Option<string>): string
  {
    if theme == Some(Light) then Dark else Light
  }

  /** Toggling twice from `light` or `dark` gives the start back; a click always changes
      those two; any other value becomes `light`. */
  lemma ToggleTwice(t: string)
    ensures t == Light || t == Dark ==> Toggled(Some(Toggled(Some(t)))) == t && Toggled(Some(t)) != t
    ensures t != Light ==> Toggled(Some(t)) == Light
  {
  }

  /** `if (!theme) return null`: the button shows only for a non-empty theme. */
  predicate Renders(theme: Option<string>)
  {
    theme.Some? && theme.value != ""
  }

  /** The document root's `dark` class, the stored `theme` entry and the component state. */
  class ThemeButton {
    var darkClass: bool
    var storedTheme: Option<string>
    var theme: Option<string>

    /** What the theme effect leaves behind. */
    predicate InSync()
      reads this
    {
      (darkClass <==> theme == Some(Dark)) && storedTheme == Some(if theme == Some(Dark) then Dark else Light)
    }

    /** The first render: `useState(null)`. */
    constructor (darkClass: bool, storedTheme: Option<string>)
      ensures this.darkClass == darkClass && this.storedTheme == storedTheme && theme == None
      ensures !Renders(theme)
    {
      this.darkClass := darkClass;
      this.storedTheme := storedTheme;
      theme := None;
    }

    /** The effect on `[theme]`. */
    method ApplyTheme()
      modifies this
      ensures theme == old(theme) && InSync()
    {
      if theme == Some(Dark) {
        darkClass := true;
        storedTheme := Some(Dark);
      } else {
        darkClass := false;
        storedTheme := Some(Light);
      }
    }

    /** Mount: the initialising effect reads storage, the media query and the class; the
        theme effect then runs for the first render's `null`; the state update renders
        again and the theme effect runs for the resolved theme. `storageThrows` says that
        reading storage threw. */
    method Mount(prefersDark: bool, storageThrows: bool)
      requires theme == None
      modifies this
      ensures theme == Some(if storageThrows then FallbackTheme(old(darkClass))
                            else InitialTheme(old(storedTheme), prefersDark, old(darkClass)))
      ensures Renders(theme) && InSync()
    {
      var resolved;
      if storageThrows {
        resolved := FallbackTheme(darkClass);
      } else {
        resolved := InitialTheme(storedTheme, prefersDark, darkClass);
      }
      ApplyTheme();
      theme := Some(resolved);
      ApplyTheme();
    }

    /** A click on the button, then the theme effect. */
    method Click()
      requires Renders(theme)
      modifies this
      ensures theme == Some(Toggled(old(theme)))
      ensures Renders(theme) && InSync()
    {
      if theme == Some(Light) {
        theme := Some(Dark);
      } else {
        theme := Some(Light);
      }
      ApplyTheme();
    }
  }
}
