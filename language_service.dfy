/**
 * Language preference (`LanguageService`): Spanish or English, restored at
 * start from the stored preference, else from the browser, else Spanish, and
 * written back to the key-value store on every change.
 */
module LanguageService {
  import opened Wrappers
  import opened LocalStorage

  const PreferenceKey: string := "preferredLanguage"

  datatype Language = Es | En

  function Code(lang: Language): string
  {
    match lang
    case Es => "es"
    case En => "en"
  }

  /** The language a code names, if it is one of the two supported codes. */
  function ParseCode(code: string): (lang: Option<Language>)
    ensures lang.Some? <==> code == "es" || code == "en"
    ensures lang.Some? ==> Code(lang.value) == code
  {
    if code == "es" then Some(Es) else if code == "en" then Some(En) else None
  }

  lemma ParseCodeRoundTrip(lang: Language)
    ensures ParseCode(Code(lang)) == Some(lang)
  {
  }

  /** The language a stored preference names; anything else (absent, empty, unknown) names none. */
  function SavedLanguage(saved: Option<StoredValue>): (lang: Option<Language>)
    ensures lang.Some? <==> saved == Some(Text("es")) || saved == Some(Text("en"))
    ensures lang.Some? ==> saved == Some(Text(Code(lang.value)))
  {
    if saved.Some? && saved.value.Text? then ParseCode(saved.value.text) else None
  }

  /** `restoreLanguage`'s choice: the stored preference, else the browser language, else Spanish. */
  function RestoredLanguage(saved: Option<StoredValue>, browserLang: Option<string>): (lang: Language)
    ensures SavedLanguage(saved).Some? ==> lang == SavedLanguage(saved).value
    ensures SavedLanguage(saved).None? && browserLang.Some? && ParseCode(browserLang.value).Some? ==>
      lang == ParseCode(browserLang.value).value
    ensures SavedLanguage(saved).None? && (browserLang.None? || ParseCode(browserLang.value).None?) ==>
      lang == Es
  {
    match SavedLanguage(saved)
    case Some(l) => l
    case None =>
      if browserLang.Some? && ParseCode(browserLang.value).Some? then ParseCode(browserLang.value).value else Es
  }

  /** The language `toggleLanguage` switches to. */
  function Toggled(lang: Language): (other: Language)
    ensures other != lang
  {
    if lang == Es then En else Es
  }

  lemma ToggleTwice(lang: Language)
    ensures Toggled(Toggled(lang)) == lang
  {
  }

  /** The translation library, seen through the calls the service makes on it. */
  class Translator {
    var langs: set<string>
    var defaultLang: Option<string>
    var currentLang: Option<string>
    /** What `getBrowserLang()` answers; `None` is `undefined`. */
    const browserLang: Option<string>

    constructor(browserLang: Option<string>)
      ensures langs == {} && defaultLang == None && currentLang == None
      ensures this.browserLang == browserLang
    {
      langs := {};
      defaultLang := None;
      currentLang := None;
      this.browserLang := browserLang;
    }

    method AddLangs(codes: seq<string>)
      modifies this`langs
      ensures langs == old(langs) + set c | c in codes
    {
      langs := langs + set c | c in codes;
    }

    method SetDefaultLang(code: string)
      modifies this`defaultLang
      ensures defaultLang == Some(code)
    {
      defaultLang := Some(code);
    }

    method Use(code: string)
      modifies this`currentLang
      ensures currentLang == Some(code)
    {
      currentLang := Some(code);
    }
  }

  class LanguageService {
    const translate: Translator
    const storage: KeyValueStore
    var currentLanguage: Language

    /** The translator uses the current language and the store holds it. */
    ghost predicate Persisted()
      reads this, translate, storage
    {
      && translate.currentLang == Some(Code(currentLanguage))
      && PreferenceKey in storage.entries
      && storage.entries[PreferenceKey] == Text(Code(currentLanguage))
    }

    /** Registers both languages, makes Spanish the fallback, then restores the preference. */
    constructor(translate: Translator, storage: KeyValueStore)
      modifies translate, storage
      ensures this.translate == translate && this.storage == storage
      ensures translate.langs == old(translate.langs) + {"es", "en"}
      ensures translate.defaultLang == Some("es")
      ensures currentLanguage == RestoredLanguage(old(storage.GetItem(PreferenceKey)), translate.browserLang)
      ensures storage.entries == old(storage.entries)[PreferenceKey := Text(Code(currentLanguage))]
      ensures Persisted()
    {
      this.translate := translate;
      this.storage := storage;
      currentLanguage := Es;
      new;
      translate.AddLangs(["es", "en"]);
      translate.SetDefaultLang("es");
      RestoreLanguage();
    }

    /** `restoreLanguage()`. */
    method RestoreLanguage()
      modifies this`currentLanguage, translate`currentLang, storage
      ensures currentLanguage == RestoredLanguage(old(storage.GetItem(PreferenceKey)), translate.browserLang)
      ensures storage.entries == old(storage.entries)[PreferenceKey := Text(Code(currentLanguage))]
      ensures Persisted()
    {
      var savedLang := storage.GetItem(PreferenceKey);
      if SavedLanguage(savedLang).Some? {
        SetLanguage(SavedLanguage(savedLang).value);
      } else {
        var browserLang := translate.browserLang;
        var langToUse := if browserLang.Some? && ParseCode(browserLang.value).Some?
          then ParseCode(browserLang.value).value else Es;
        SetLanguage(langToUse);
      }
    }

    /** `setLanguage(lang)`: switches, tells the translator and stores the preference. */
    method SetLanguage(lang: Language)
      modifies this`currentLanguage, translate`currentLang, storage
      ensures currentLanguage == lang
      ensures storage.entries == old(storage.entries)[PreferenceKey := Text(Code(lang))]
      ensures Persisted()
    {
      currentLanguage := lang;
      translate.Use(Code(lang));
      storage.SetItem(PreferenceKey, Text(Code(lang)));
    }

    /** `toggleLanguage()`: Spanish becomes English and English becomes Spanish. */
    method ToggleLanguage()
      modifies this`currentLanguage, translate`currentLang, storage
      ensures currentLanguage == Toggled(old(currentLanguage))
      ensures storage.entries == old(storage.entries)[PreferenceKey := Text(Code(currentLanguage))]
      ensures Persisted()
    {
      var newLang := if currentLanguage == Es then En else Es;
      SetLanguage(newLang);
    }

    /** `getCurrentLanguage()`: reads, changes nothing. */
    method GetCurrentLanguage() returns (lang: Language)
      ensures lang == currentLanguage
    {
      lang := currentLanguage;
    }
  }
}
