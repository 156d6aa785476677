/**
 * Colour theme (`ThemeService`): light or dark, loaded from the key-value
 * store, stored back on every change, and mirrored by the `dark` class on the
 * document root. The stored value is not validated when loaded, so the
 * current theme can also be some other stored value.
 */
module ThemeService {
  import opened Wrappers
  import opened LocalStorage

  const ThemeKey: string := "theme"

  /** The theme signal's value: one of the two themes, or an unrecognised stored value kept as it was read. */
  datatype Theme = Light | Dark | Unrecognised(raw: StoredValue)

  function Code(t: Theme): string
    requires !t.Unrecognised?
  {
    if t == Dark then "dark" else "light"
  }

  /**
   * `loadTheme()`: a missing or empty stored value gives light; "light" and
   * "dark" give their theme; any other value is returned unvalidated.
   */
  function LoadTheme(stored: Option<StoredValue>): (t: Theme)
    ensures stored == None || stored == Some(Text("")) ==> t == Light
    ensures stored == Some(Text("light")) ==> t == Light
    ensures stored == Some(Text("dark")) ==> t == Dark
    ensures t.Unrecognised? <==>
      stored.Some? && stored.value !in {Text(""), Text("light"), Text("dark")}
    ensures t.Unrecognised? ==> t.raw == stored.value
  {
    match stored
    case None => Light
    case Some(v) =>
      if v == Text("") || v == Text("light") then Light
      else if v == Text("dark") then Dark
      else Unrecognised(v)
  }

  /** The theme `toggle()` switches to: dark from light, light from anything else. */
  function NextTheme(t: Theme): (next: Theme)
    ensures next == Dark <==> t == Light
    ensures next == Light || next == Dark
  {
    if t == Light then Dark else Light
  }

  /** Toggling twice from either named theme comes back to it. */
  lemma ToggleTwice(t: Theme)
    requires !t.Unrecognised?
    ensures NextTheme(NextTheme(t)) == t
  {
  }

  /** The document's root element, seen through its `dark` class. */
  class DocumentRoot {
    var darkClass: bool

    constructor(darkClass: bool)
      ensures this.darkClass == darkClass
    {
      this.darkClass := darkClass;
    }
  }

  class ThemeService {
    const storage: KeyValueStore
    const html: DocumentRoot
    var theme: Theme

    /** The document shows the dark class exactly when the theme is dark. */
    ghost predicate Applied()
      reads this, html
    {
      html.darkClass <==> theme == Dark
    }

    /** The store holds the current theme. */
    ghost predicate Persisted()
      reads this, storage
    {
      !theme.Unrecognised? && ThemeKey in storage.entries && storage.entries[ThemeKey] == Text(Code(theme))
    }

    /** Loads the stored theme and applies it; the store is only read. */
    constructor(storage: KeyValueStore, html: DocumentRoot)
      modifies html
      ensures this.storage == storage && this.html == html
      ensures theme == LoadTheme(storage.GetItem(ThemeKey))
      ensures Applied()
    {
      this.storage := storage;
      this.html := html;
      theme := LoadTheme(storage.GetItem(ThemeKey));
      new;
      ApplyTheme(theme);
    }

    /** `toggle()`. */
    method Toggle()
      modifies this`theme, storage, html
      ensures theme == NextTheme(old(theme))
      ensures storage.entries == old(storage.entries)[ThemeKey := Text(Code(theme))]
      ensures Applied() && Persisted()
    {
      var nextTheme := if theme == Light then Dark else Light;
      SetTheme(nextTheme);
    }

    /** `setTheme(t)`: switches, stores and applies. */
    method SetTheme(t: Theme)
      requires t == Light || t == Dark
      modifies this`theme, storage, html
      ensures theme == t
      ensures storage.entries == old(storage.entries)[ThemeKey := Text(Code(t))]
      ensures Applied() && Persisted()
    {
      theme := t;
      storage.SetItem(ThemeKey, Text(Code(t)));
      ApplyTheme(t);
    }

    /** `applyTheme(t)`: adds the dark class for dark and removes it otherwise; the old class state does not matter. */
    method ApplyTheme(t: Theme)
      modifies html
      ensures html.darkClass <==> t == Dark
    {
      if t == Dark {
        html.darkClass := true;
      } else {
        html.darkClass := false;
      }
    }
  }
}
