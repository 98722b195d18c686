/** The translators of `translator/__init__.py`: a one-language lookup table and
    a multi-language one with an installed current language. */
module Translator {
  import opened Wrappers
  import opened PyErrors
  import Text

  /** `OneLanguageTranslator`: the table read from its file. */
  class OneLanguageTranslator {
    const translations: map<string, string>

    /** The file read of the constructor is replaced by its result. */
    constructor (translations: map<string, string>)
      ensures this.translations == translations
    {
      this.translations := translations;
    }

    /** `translate(path)` (alias `tr`): the stored text, or the key itself. */
    function Translate(path: string): (r: string)
      ensures path in translations ==> r == translations[path]
      ensures path !in translations ==> r == path
    {
      if path in translations then translations[path] else path
    }
  }

  /** `supported_languages`: a string (by default `"all"`) or a list. */
  datatype Supported = AsText(text: string) | AsList(languages: seq<string>)

  /** The test of `install`: `language in supported_languages` (a substring
      test when that is a string) or `supported_languages == "all"`. */
  predicate Supports(supported: Supported, language: string)
  {
    match supported
    case AsText(s) => Text.Contains(s, language) || s == "all"
    case AsList(ls) => language in ls
  }

  /** Leaving the default `"all"` accepts every language. */
  lemma AllSupportsEverything(language: string)
    ensures Supports(AsText("all"), language)
  {
  }

  /** A string of languages is searched as a string: `"en"` admits `"e"` and
      the empty language, which a list `["en"]` does not. */
  lemma TextSupportsSubstrings()
    ensures Supports(AsText("en"), "e") && Supports(AsText("en"), "")
    ensures !Supports(AsList(["en"]), "e") && !Supports(AsList(["en"]), "")
  {
    assert Text.IsPrefix("e", "en");
    assert Text.IsPrefix("", "en");
  }

  /** `BaseTranslator`: a table per language and the language in use. */
  class BaseTranslator {
    const translations: map<string, map<string, string>>
    var currentLanguage: string
    const supported: Supported

    constructor Init(translations: map<string, map<string, string>>, language: string, supported: Supported)
      ensures this.translations == translations && currentLanguage == language && this.supported == supported
    {
      this.translations := translations;
      currentLanguage := language;
      this.supported := supported;
    }

    /** `BaseTranslator(translations, default_language="en",
        supported_languages="all")`: the constructor installs the default
        language and so raises `LanguageNotSupportedError` for an unsupported
        one. */
    static method Create(translations: map<string, map<string, string>>, defaultLanguage: string, supported: Supported)
      returns (r: Result<BaseTranslator, Exception>)
      ensures r.Success? <==> Supports(supported, defaultLanguage)
      ensures r.Failure? ==> r.error == LanguageNotSupported
      ensures r.Success? ==> && fresh(r.value) && r.value.translations == translations
                             && r.value.currentLanguage == defaultLanguage && r.value.supported == supported
    {
      var t := new BaseTranslator.Init(translations, defaultLanguage, supported);
      var e := t.Install(defaultLanguage);
      if e.Some? {
        return Failure(e.value);
      }
      r := Success(t);
    }

    /** `install(language)`: switches to a supported language; otherwise
        raises and keeps the current one. */
    method Install(language: string) returns (e: Option<Exception>)
      modifies this
      ensures e.None? <==> Supports(supported, language)
      ensures e.Some? ==> e.value == LanguageNotSupported
      ensures currentLanguage == if e.None? then language else old(currentLanguage)
    {
      if Supports(supported, language) {
        currentLanguage := language;
        e := None;
      } else {
        e := Some(LanguageNotSupported);
      }
    }

    /** `translate(key)`: the current language's text for `key`; a missing
        language or key (`KeyError`) gives the key back. */
    function Translate(key: string): (r: string)
      reads this
      ensures currentLanguage in translations && key in translations[currentLanguage] ==>
                r == translations[currentLanguage][key]
      ensures !(currentLanguage in translations && key in translations[currentLanguage]) ==> r == key
    {
      if currentLanguage in translations && key in translations[currentLanguage] then
        translations[currentLanguage][key]
      else key
    }
  }

  /** A one-language translator translates as a multi-language one holding
      its table as the table of the installed language, whatever the key. */
  lemma OneAsBase(one: OneLanguageTranslator, base: BaseTranslator, key: string)
    requires base.translations == map[base.currentLanguage := one.translations]
    ensures base.Translate(key) == one.Translate(key)
  {
  }
}
