/** The theme provider (`lib/theme`): which theme is chosen, what it resolves to, how it is
    restored from and saved to storage, how the document's `data-theme` attribute follows it,
    and the guard on reading the theme outside the provider. Theme names are strings: the
    stored value is read back without validation, so any string can become the theme. */
module Theme {
  import opened Numerics

  datatype Result<T> = Ok(value: T) | Err(message: string)

  /** The three names the site itself uses. */
  predicate IsTheme(t: string) {
    t == "light" || t == "dark" || t == "system"
  }

  /** The storage key under which the chosen theme is saved. */
  const StorageKey: string := "theme"

  /** The operating system's colour scheme: `None` when there is no window (server
      rendering), otherwise whether the dark-scheme query matches. */
  function SystemTheme(prefersDark: Option<bool>): (r: string)
    ensures r == "light" || r == "dark"
    ensures prefersDark.None? ==> r == "dark"
  {
    if prefersDark.None? then "dark" else if prefersDark.value then "dark" else "light"
  }

  /** The theme actually shown: "system" follows the colour scheme, anything else is used as is. */
  function ResolveTheme(theme: string, prefersDark: Option<bool>): string {
    if theme == "system" then SystemTheme(prefersDark) else theme
  }

  /** Resolution never yields "system", keeps "light" and "dark", turns each of the site's
      names into "light" or "dark", and resolving twice changes nothing. */
  lemma ResolveThemeSchedule(theme: string, prefersDark: Option<bool>)
    ensures ResolveTheme(theme, prefersDark) != "system"
    ensures theme == "light" || theme == "dark" ==> ResolveTheme(theme, prefersDark) == theme
    ensures IsTheme(theme) ==> ResolveTheme(theme, prefersDark) in {"light", "dark"}
    ensures ResolveTheme(ResolveTheme(theme, prefersDark), prefersDark) == ResolveTheme(theme, prefersDark)
  {}

  /** The stored theme, if any. */
  function Stored(storage: map<string, string>): Option<string> {
    if StorageKey in storage then Some(storage[StorageKey]) else None
  }

  /** The theme the provider starts from: the stored value, or "system" when nothing (or an
      empty string) is stored. */
  function InitialTheme(stored: Option<string>): (t: string)
    ensures t != ""
  {
    if stored.Some? && stored.value != "" then stored.value else "system"
  }

  /** Saving a theme and loading again gives it back; with nothing saved the provider starts
      from "system"; a stored value outside the site's names is used, and resolved, as is. */
  lemma StoredThemeRoundTrip(storage: map<string, string>, t: string, junk: string)
    requires t != ""
    requires junk != "" && !IsTheme(junk)
    ensures InitialTheme(Stored(storage[StorageKey := t])) == t
    ensures StorageKey !in storage ==> InitialTheme(Stored(storage)) == "system"
    ensures InitialTheme(Some("")) == "system"
    ensures InitialTheme(Some(junk)) == junk && ResolveTheme(junk, None) == junk
  {}

  /** What the provider hands to the components below it. */
  datatype ThemeContextValue = ThemeContextValue(theme: string, resolvedTheme: string)

  /** Reading the theme: outside a provider this fails. */
  function UseTheme(context: Option<ThemeContextValue>): (r: Result<ThemeContextValue>)
    ensures r.Err? <==> context.None?
    ensures r.Ok? ==> r.value == context.value
    ensures r.Err? ==> r.message == "useTheme must be used within a ThemeProvider"
  {
    if context.None? then Err("useTheme must be used within a ThemeProvider") else Ok(context.value)
  }

  /** The provider's state together with the browser state its effects write: local storage,
      the document's `data-theme` attribute, and whether the colour-scheme listener is on. */
  class ThemeProvider {
    var theme: string
    var resolvedTheme: string
    var mounted: bool
    var storage: map<string, string>
    var dataTheme: Option<string>
    var listening: bool

    /** The first render: "system", shown dark, not mounted; the browser state is as found. */
    constructor (initialStorage: map<string, string>, initialDataTheme: Option<string>)
      ensures theme == "system" && resolvedTheme == "dark" && !mounted && !listening
      ensures storage == initialStorage && dataTheme == initialDataTheme
    {
      theme := "system";
      resolvedTheme := "dark";
      mounted := false;
      storage := initialStorage;
      dataTheme := initialDataTheme;
      listening := false;
    }

    /** The mount effect: the theme is restored from storage and resolved, and the provider
        counts as mounted. Nothing is written yet. */
    method Mount(prefersDark: Option<bool>)
      modifies this
      ensures theme == InitialTheme(Stored(old(storage)))
      ensures resolvedTheme == ResolveTheme(theme, prefersDark)
      ensures mounted
      ensures storage == old(storage) && dataTheme == old(dataTheme) && listening == old(listening)
    {
      var initialTheme := InitialTheme(Stored(storage));
      theme := initialTheme;
      resolvedTheme := ResolveTheme(initialTheme, prefersDark);
      mounted := true;
    }

    /** The effects that run after the theme or the mounted flag changed: once mounted, the
        theme is resolved, written to `data-theme` and saved; the colour-scheme listener is
        on exactly while mounted with the "system" theme. Before mount nothing is written. */
    method RunEffects(prefersDark: Option<bool>)
      modifies this
      ensures theme == old(theme) && mounted == old(mounted)
      ensures mounted ==> resolvedTheme == ResolveTheme(theme, prefersDark)
                          && dataTheme == Some(resolvedTheme)
                          && storage == old(storage)[StorageKey := theme]
      ensures !mounted ==> resolvedTheme == old(resolvedTheme) && dataTheme == old(dataTheme)
                           && storage == old(storage)
      ensures listening <==> mounted && theme == "system"
    {
      if mounted {
        var resolved := ResolveTheme(theme, prefersDark);
        resolvedTheme := resolved;
        dataTheme := Some(resolved);
        storage := storage[StorageKey := theme];
      }
      listening := mounted && theme == "system";
    }

    /** The operating system's colour scheme changed: only a registered listener reacts, and
        it updates the shown theme and `data-theme`, never the chosen theme or storage. */
    method SystemChange(matchesDark: bool)
      modifies this
      ensures theme == old(theme) && storage == old(storage) && mounted == old(mounted)
      ensures listening == old(listening)
      ensures listening ==> resolvedTheme == SystemTheme(Some(matchesDark))
                            && dataTheme == Some(resolvedTheme)
      ensures !listening ==> resolvedTheme == old(resolvedTheme) && dataTheme == old(dataTheme)
    {
      if listening {
        var newTheme := if matchesDark then "dark" else "light";
        resolvedTheme := newTheme;
        dataTheme := Some(newTheme);
      }
    }

    /** Choosing a theme changes only the chosen theme; the effects follow. */
    method SetTheme(newTheme: string)
      modifies this
      ensures theme == newTheme
      ensures resolvedTheme == old(resolvedTheme) && mounted == old(mounted)
      ensures storage == old(storage) && dataTheme == old(dataTheme) && listening == old(listening)
    {
      theme := newTheme;
    }

    /** What the provider renders: nothing before mount, then the context value. */
    function Render(): (r: Option<ThemeContextValue>)
      reads this
      ensures r.Some? <==> mounted
      ensures r.Some? ==> r.value.theme == theme && r.value.resolvedTheme == resolvedTheme
    {
      if !mounted then None else Some(ThemeContextValue(theme, resolvedTheme))
    }
  }

  /** A full visit: mount, effects, a theme choice and its effects. The chosen theme ends up
      saved and shown, and a later visit starting from the saved storage restores it. */
  method Visit(initialStorage: map<string, string>, prefersDark: Option<bool>, choice: string)
    returns (saved: map<string, string>, shown: Option<string>)
    requires choice != ""
    ensures StorageKey in saved && saved[StorageKey] == choice
    ensures shown == Some(ResolveTheme(choice, prefersDark))
    ensures InitialTheme(Stored(saved)) == choice
  {
    var provider := new ThemeProvider(initialStorage, None);
    provider.Mount(prefersDark);
    provider.RunEffects(prefersDark);
    provider.SetTheme(choice);
    provider.RunEffects(prefersDark);
    saved := provider.storage;
    shown := provider.dataTheme;
  }
}
