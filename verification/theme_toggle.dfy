/** The theme button (`ThemeToggle`): each click moves to the next theme, and the button's
    title and its three stacked icons show the current one. */
module ThemeToggle {
  import opened Theme

  /** The next theme: light, then dark, then system, then light again; any other value
      goes to light. */
  function CycleTheme(theme: string): (next: string)
    ensures IsTheme(next)
  {
    if theme == "light" then "dark"
    else if theme == "dark" then "system"
    else "light"
  }

  /** On the site's own names the cycle has length three and no fixed point; any other
      stored value is repaired to "light" by one click. */
  lemma CycleThemeOrder(theme: string)
    ensures IsTheme(theme) ==> CycleTheme(CycleTheme(CycleTheme(theme))) == theme
    ensures IsTheme(theme) ==> CycleTheme(theme) != theme
    ensures IsTheme(theme) ==> CycleTheme(CycleTheme(theme)) != theme
    ensures !IsTheme(theme) ==> CycleTheme(theme) == "light"
  {}

  /** The button's tooltip, with "System" as the fallback branch. */
  function Title(theme: string): string {
    if theme == "light" then "Light" else if theme == "dark" then "Dark" else "System"
  }

  datatype Icon = Sun | Moon | Monitor

  /** The theme each icon stands for. */
  function IconTheme(icon: Icon): string {
    match icon
    case Sun => "light"
    case Moon => "dark"
    case Monitor => "system"
  }

  /** The classes that show an icon; the moon hides by turning the other way. */
  const ShownClasses: string := "rotate-0 scale-100 opacity-100"

  function IconClasses(theme: string, icon: Icon): string {
    if theme == IconTheme(icon) then ShownClasses
    else if icon == Moon then "-rotate-90 scale-0 opacity-0"
    else "rotate-90 scale-0 opacity-0"
  }

  /** For each of the site's names exactly one icon is shown and the title names the same
      theme; for any other value no icon is shown while the title falls back to "System". */
  lemma OneIconShown(theme: string)
    ensures IsTheme(theme) ==> exists icon :: IconClasses(theme, icon) == ShownClasses
    ensures forall a, b :: IconClasses(theme, a) == ShownClasses && IconClasses(theme, b) == ShownClasses ==> a == b
    ensures forall icon :: IconClasses(theme, icon) == ShownClasses ==> Title(theme) == TitleOf(icon)
    ensures !IsTheme(theme) ==> (forall icon :: IconClasses(theme, icon) != ShownClasses) && Title(theme) == "System"
  {
    if theme == "light" {
      assert IconClasses(theme, Sun) == ShownClasses;
    } else if theme == "dark" {
      assert IconClasses(theme, Moon) == ShownClasses;
    } else if theme == "system" {
      assert IconClasses(theme, Monitor) == ShownClasses;
    }
  }

  /** The title that goes with an icon. */
  function TitleOf(icon: Icon): string {
    match icon
    case Sun => "Light"
    case Moon => "Dark"
    case Monitor => "System"
  }
}
