/**
 * The language store of src/lib/i18n/index.svelte.ts: the interface language
 * (English or Spanish), chosen at start-up from local storage or the
 * browser's language, changed by `setLanguage` and `toggle` and written back
 * to local storage (key "fitlog_language"); message lookup with fallbacks;
 * machine names shown in the current language; category names.
 *
 * The message catalogue (src/lib/i18n/translations.ts) is not part of this
 * model: it is a parameter, one map per language. Local storage is the value
 * held under the store's key, and `navigator.language` is a parameter.
 */
module I18n {
  import opened Wrappers
  import opened Types
  import MachineTranslations

  type Language = MachineTranslations.Language

  /** The message catalogue, per language; a key a language lacks is `undefined` there. */
  datatype Catalogue = Catalogue(en: map<string, string>, es: map<string, string>)

  /** The code a language is stored as. */
  function LanguageCode(l: Language): string
  {
    match l
    case En => "en"
    case Es => "es"
  }

  /** `slice(0, 2)`: the first two characters, or the whole string when it is shorter. */
  function Prefix2(s: string): (r: string)
    ensures r <= s
    ensures |r| == (if |s| < 2 then |s| else 2)
  {
    if |s| < 2 then s else s[..2]
  }

  /**
   * `getInitialLanguage`: English outside a browser; in a browser a stored
   * "en" or "es" wins; otherwise Spanish exactly when the browser's language
   * starts with "es".
   */
  function InitialLanguage(browser: bool, stored: Option<string>, navigatorLanguage: string): (r: Language)
    ensures !browser ==> r == MachineTranslations.En
    ensures browser && stored == Some("en") ==> r == MachineTranslations.En
    ensures browser && stored == Some("es") ==> r == MachineTranslations.Es
    ensures browser && stored != Some("en") && stored != Some("es") ==>
              (r == MachineTranslations.Es <==> |navigatorLanguage| >= 2 && navigatorLanguage[..2] == "es")
  {
    if !browser then MachineTranslations.En
    else if stored == Some("en") then MachineTranslations.En
    else if stored == Some("es") then MachineTranslations.Es
    else if Prefix2(navigatorLanguage) == "es" then MachineTranslations.Es
    else MachineTranslations.En
  }

  /** A language that was stored is the one chosen at the next start, whatever the browser says. */
  lemma InitialAfterStore(l: Language, navigatorLanguage: string)
    ensures InitialLanguage(true, Some(LanguageCode(l)), navigatorLanguage) == l
  {
  }

  /** The language `toggle` switches to. */
  function Flip(l: Language): (r: Language)
    ensures r != l
  {
    match l
    case En => MachineTranslations.Es
    case Es => MachineTranslations.En
  }

  /** Toggling twice restores the language. */
  lemma FlipTwice(l: Language)
    ensures Flip(Flip(l)) == l
  {
  }

  /** The messages of one language. */
  function Messages(c: Catalogue, l: Language): map<string, string>
  {
    match l
    case En => c.en
    case Es => c.es
  }

  /** `m[key]` is truthy: present and not the empty string. */
  predicate Truthy(m: map<string, string>, key: string)
  {
    key in m && m[key] != ""
  }

  /**
   * `translations[language][key] || translations.en[key] || key`: the first of
   * the three that is a non-empty string (`key` itself when all are falsy).
   */
  function Translate(c: Catalogue, l: Language, key: string): (r: string)
    ensures Truthy(Messages(c, l), key) ==> r == Messages(c, l)[key]
    ensures !Truthy(Messages(c, l), key) && Truthy(c.en, key) ==> r == c.en[key]
    ensures !Truthy(Messages(c, l), key) && !Truthy(c.en, key) ==> r == key
  {
    var m := Messages(c, l);
    if Truthy(m, key) then m[key]
    else if Truthy(c.en, key) then c.en[key]
    else key
  }

  /**
   * A message is never blank for a non-blank key, and it is one of the
   * catalogue's strings for that key or the key itself.
   */
  lemma TranslateNonEmpty(c: Catalogue, l: Language, key: string)
    ensures key != "" ==> Translate(c, l, key) != ""
    ensures || Translate(c, l, key) == key
            || (key in Messages(c, l) && Translate(c, l, key) == Messages(c, l)[key])
            || (key in c.en && Translate(c, l, key) == c.en[key])
  {
  }

  /** A message missing in Spanish falls back to English, and a message missing everywhere to its key. */
  lemma TranslateFallback(c: Catalogue, key: string)
    ensures !Truthy(c.es, key) ==> Translate(c, MachineTranslations.Es, key) == Translate(c, MachineTranslations.En, key)
  {
  }

  /**
   * `categoryTranslationMap[category]`: the message key of a category name
   * (Back's is "back_category", since "back" means the navigation button),
   * and no key for any other string.
   */
  function CategoryKey(category: string): (r: Option<string>)
    ensures r.Some? <==> CategoryFromName(category).Some?
  {
    match CategoryFromName(category)
    case Some(Back) => Some("back_category")
    case Some(c) => Some(CategoryName(c))
    case None => None
  }

  /** Each category's key is its own name, except Back's. */
  lemma CategoryKeys(c: Category)
    ensures CategoryKey(CategoryName(c)) == Some(if c == Back then "back_category" else CategoryName(c))
    ensures CategoryKey(CategoryName(c)).value != ""
  {
    CategoryNameRoundTrip(c);
  }

  class I18nStore {
    /** Whether the code runs in a browser. */
    const browser: bool
    /** The message catalogue. */
    const catalogue: Catalogue
    /** The current interface language. */
    var language: Language
    /** Local storage under the key "fitlog_language". */
    var storage: Option<string>

    constructor (browser: bool, storage: Option<string>, navigatorLanguage: string, catalogue: Catalogue)
      ensures this.browser == browser && this.catalogue == catalogue && this.storage == storage
      ensures language == InitialLanguage(browser, storage, navigatorLanguage)
    {
      this.browser := browser;
      this.catalogue := catalogue;
      this.storage := storage;
      this.language := InitialLanguage(browser, storage, navigatorLanguage);
    }

    /** `isSpanish`. */
    function IsSpanish(): (r: bool)
      reads this
      ensures r <==> language == MachineTranslations.Es
    {
      language == MachineTranslations.Es
    }

    /** `setLanguage(l)`: switches to `l` and, in a browser, stores it for the next start. */
    method SetLanguage(l: Language)
      modifies this
      ensures language == l
      ensures storage == (if browser then Some(LanguageCode(l)) else old(storage))
      ensures browser ==> forall nav :: InitialLanguage(browser, storage, nav) == l
    {
      language := l;
      if browser {
        storage := Some(LanguageCode(l));
      }
    }

    /** `toggle`: switches to the other language, through `setLanguage`. */
    method Toggle()
      modifies this
      ensures language == Flip(old(language))
      ensures storage == (if browser then Some(LanguageCode(language)) else old(storage))
    {
      var newLang := if language == MachineTranslations.En then MachineTranslations.Es else MachineTranslations.En;
      SetLanguage(newLang);
    }

    /** `t(key)` in the current language. */
    function T(key: string): (r: string)
      reads this
      ensures key != "" ==> r != ""
      ensures Truthy(Messages(catalogue, language), key) ==> r == Messages(catalogue, language)[key]
    {
      TranslateNonEmpty(catalogue, language, key);
      Translate(catalogue, language, key)
    }

    /** `machine(name)`: a stored machine name shown in the current language. */
    function Machine(englishName: string): (r: string)
      reads this
      ensures language == MachineTranslations.En ==> r == englishName
      ensures MachineTranslations.Known(englishName) ==> MachineTranslations.FindEnglishName(r, language) == englishName
    {
      MachineTranslations.TranslateEnglishIdentity(englishName);
      MachineTranslations.MachineRoundTrip(englishName, language);
      MachineTranslations.TranslateMachine(englishName, language)
    }

    /** `getCategoryTranslation(category)`: a category's message, any other string unchanged. */
    function CategoryTranslation(category: string): (r: string)
      reads this
      ensures CategoryKey(category).None? ==> r == category
      ensures CategoryKey(category).Some? ==> r == T(CategoryKey(category).value)
      ensures category != "" ==> r != ""
    {
      match CategoryKey(category)
      case Some(key) =>
        CategoryKeys(CategoryFromName(category).value);
        T(key)
      case None => category
    }
  }
}
