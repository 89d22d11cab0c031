/**
 * Interface-language choice (services/language.service.ts): the saved choice
 * wins, then the browser language's primary subtag, then English. Local storage
 * is the optional saved string; `navigator.language` is a parameter; handing the
 * language to the translation library is not modelled.
 */
module Languages {
  import opened Wrappers

  datatype SupportedLanguage = En | Pt | Es

  datatype LanguageOption = LanguageOption(code: SupportedLanguage, name: string, flag: string)

  function Code(l: SupportedLanguage): string
  {
    match l
    case En => "en"
    case Pt => "pt"
    case Es => "es"
  }

  /** `supportedLanguages`, in display order. */
  const SupportedLanguages: seq<LanguageOption> := [
    LanguageOption(En, "English", "\U{1F1FA}\U{1F1F8}"),
    LanguageOption(Pt, "Português", "\U{1F1E7}\U{1F1F7}"),
    LanguageOption(Es, "Español", "\U{1F1EA}\U{1F1F8}")
  ]

  /** `isValidLanguage`: membership in `['en', 'pt', 'es']`. */
  predicate IsValidLanguage(s: string)
  {
    s in ["en", "pt", "es"]
  }

  /** The supported language a valid code names. */
  function Parse(s: string): (l: SupportedLanguage)
    requires IsValidLanguage(s)
    ensures Code(l) == s
  {
    if s == "en" then En else if s == "pt" then Pt else Es
  }

  /** Exactly the three codes are valid, and each supported language's code is. */
  lemma ValidLanguagesAreTheCodes(s: string)
    ensures IsValidLanguage(s) <==> exists l: SupportedLanguage :: Code(l) == s
  {
    if IsValidLanguage(s) {
      assert Code(Parse(s)) == s;
    }
  }

  /** `s.split('-')[0]`: everything before the first `-`, or all of `s` when it has none. */
  function BeforeFirstDash(s: string): (r: string)
    ensures r <= s
    ensures '-' !in r
    ensures |r| < |s| ==> s[|r|] == '-'
  {
    if s == [] || s[0] == '-' then [] else [s[0]] + BeforeFirstDash(s[1..])
  }

  /** `loadLanguage`: a valid saved code, else the browser's primary subtag if valid, else English. */
  function LoadLanguage(saved: Option<string>, navigatorLanguage: string): (l: SupportedLanguage)
    ensures saved.Some? && IsValidLanguage(saved.value) ==> Code(l) == saved.value
    ensures !(saved.Some? && IsValidLanguage(saved.value)) && IsValidLanguage(BeforeFirstDash(navigatorLanguage)) ==>
              Code(l) == BeforeFirstDash(navigatorLanguage)
    ensures !(saved.Some? && IsValidLanguage(saved.value)) && !IsValidLanguage(BeforeFirstDash(navigatorLanguage)) ==>
              l == En
  {
    if saved.Some? && saved.value != "" && IsValidLanguage(saved.value) then Parse(saved.value)
    else
      var browserLang := BeforeFirstDash(navigatorLanguage);
      if IsValidLanguage(browserLang) then Parse(browserLang) else En
  }

  /**
   * With nothing saved, a browser tag made of a supported code, a `-` and any
   * region (`pt-BR`, `es-419`, `en-`) selects that language.
   */
  lemma RegionalTagSelectsBase(l: SupportedLanguage, region: string)
    ensures LoadLanguage(None, Code(l) + "-" + region) == l
  {
    var tag := Code(l) + "-" + region;
    var base := BeforeFirstDash(tag);
    assert tag[0] != '-' && tag[1] != '-' && tag[2] == '-';
    assert base == tag[..2] == Code(l);
  }

  /** `supportedLanguages.find(l => l.code === code)` */
  function Find(options: seq<LanguageOption>, code: SupportedLanguage): (r: Option<LanguageOption>)
    ensures r.Some? ==> r.value in options && r.value.code == code
    ensures r.Some? ==> exists i :: 0 <= i < |options| && options[i] == r.value &&
                          forall j :: 0 <= j < i ==> options[j].code != code
    ensures r.None? ==> forall o :: o in options ==> o.code != code
  {
    if options == [] then None
    else if options[0].code == code then Some(options[0])
    else Find(options[1..], code)
  }

  /** `getCurrentLanguageName`: the table's name for the language, `'English'` when missing or empty. */
  function LanguageName(code: SupportedLanguage): (name: string)
    ensures name == SupportedLanguages[match code case En => 0 case Pt => 1 case Es => 2].name
  {
    var found := Find(SupportedLanguages, code);
    if found.Some? && found.value.name != "" then found.value.name else "English"
  }

  class LanguageService {
    var currentLanguage: SupportedLanguage
    /** The value saved under the language key. */
    var saved: Option<string>

    constructor (saved: Option<string>, navigatorLanguage: string)
      ensures currentLanguage == LoadLanguage(saved, navigatorLanguage)
      ensures this.saved == saved
    {
      this.saved := saved;
      currentLanguage := LoadLanguage(saved, navigatorLanguage);
    }

    /** `setLanguage` */
    method SetLanguage(lang: SupportedLanguage)
      modifies this`currentLanguage
      ensures currentLanguage == lang
    {
      currentLanguage := lang;
    }

    /** The effect that persists the current language. */
    method SaveLanguage()
      modifies this`saved
      ensures saved == Some(Code(currentLanguage))
      ensures forall navigatorLanguage :: LoadLanguage(saved, navigatorLanguage) == currentLanguage
    {
      saved := Some(Code(currentLanguage));
    }

    /** `getCurrentLanguageName` */
    function CurrentLanguageName(): (name: string)
      reads this
      ensures name == LanguageName(currentLanguage)
      ensures name in ["English", "Português", "Español"]
    {
      LanguageName(currentLanguage)
    }
  }
}
