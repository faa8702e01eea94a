/** The theme button of src/components/ui/ThemeToggleButton.tsx: it starts as `light`, is
    synchronised with the document's `dark` class on mount, flips on each click, and an
    effect mirrors it into the class and the stored `theme` entry. */
module UiThemeToggle {

  const Dark: string := "dark"
  const Light: string := "light"

  /** `toggleTheme`: the two themes swap. */
  function Flipped(theme: string): (r: string)
    requires theme == Light || theme == Dark
    ensures r == Light || r == Dark
    ensures r != theme
  {
    if theme == Light then Dark else Light
  }

  /** Flipping twice is no change. */
  lemma FlipTwice(theme: string)
    requires theme == Light || theme == Dark
    ensures Flipped(Flipped(theme)) == theme
  {
  }

  class ThemeButton {
    var darkClass: bool
    var storedTheme: string
    var theme: string

    predicate Valid()
      reads this
    {
      theme == Light || theme == Dark
    }

    /** What the theme effect leaves behind: the class is there exactly for `dark`, and
        storage holds the theme's name. */
    predicate InSync()
      reads this
    {
      Valid() && (darkClass <==> theme == Dark) && storedTheme == theme
    }

    /** The first render: `useState('light')`, before any effect. */
    constructor (darkClass: bool, storedTheme: string)
      ensures this.darkClass == darkClass && this.storedTheme == storedTheme && theme == Light
      ensures Valid()
    {
      this.darkClass := darkClass;
      this.storedTheme := storedTheme;
      theme := Light;
    }

    /** The effect on `[theme]`. */
    method ApplyTheme()
      requires Valid()
      modifies this
      ensures theme == old(theme) && InSync()
    {
      if theme == Dark {
        darkClass := true;
      } else {
        darkClass := false;
      }
      storedTheme := theme;
    }

    /** Mount: the mount effect reads the class, the theme effect runs for the first
        render's `light`, and when the state changed the theme effect runs again. The
        document ends with the class it had, and the state agrees with it. */
    method Mount()
      requires theme == Light
      modifies this
      ensures theme == (if old(darkClass) then Dark else Light)
      ensures darkClass == old(darkClass)
      ensures InSync()
    {
      var isDark := darkClass;
      ApplyTheme();
      var next := if isDark then Dark else Light;
      if next != theme {
        theme := next;
        ApplyTheme();
      }
    }

    /** A click on the button, then the theme effect. */
    method Click()
      requires Valid()
      modifies this
      ensures theme == Flipped(old(theme))
      ensures InSync()
    {
      theme := Flipped(theme);
      ApplyTheme();
    }
  }
}
