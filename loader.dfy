/**
 * `tb_wpml_options`: on the front end, after the framework has loaded
 * the theme settings into its global snapshot, replace that snapshot
 * with the current language's option when the language is not the
 * default one.
 */
module Loader {
  import opened Values
  import opened Languages
  import opened AdminPage

  /**
   * The option the loader reads, if it reads one: only when WPML's
   * language constant is defined, the language is not the default and
   * the framework has an id.
   */
  function LanguageOption(store: Store, languageCode: Option<string>): (name: Option<string>)
    ensures name.Some? <==>
      languageCode.Some? && languageCode.value != DefaultLanguage(WpmlSettings(store)) && ConfigId(store).Some?
    ensures name.Some? ==> name.value == Suffixed(ConfigId(store).value, languageCode.value)
  {
    match ResolveFrontEnd(WpmlSettings(store), languageCode)
    case None => None
    case Some(r) =>
      if r.current != r.defaultLanguage then
        match ConfigId(store)
        case None => None
        case Some(id) => Some(Suffixed(id, r.current))
      else None
  }

  /** The framework's global `$_themeblvd_theme_settings`. */
  class ThemeSettings {
    /** The settings snapshot; `None` stands for PHP's `false`. */
    var snapshot: Option<Record>

    constructor (loaded: Option<Record>)
      ensures snapshot == loaded
    {
      snapshot := loaded;
    }

    /**
     * Swap in the current language's option. The swap reads the option
     * even when it is absent, so an absent option leaves `false` behind.
     */
    method ApplyLanguage(store: Store, languageCode: Option<string>)
      modifies this
      ensures LanguageOption(store, languageCode).None? ==> snapshot == old(snapshot)
      ensures LanguageOption(store, languageCode).Some? ==>
        snapshot == GetOption(store, LanguageOption(store, languageCode).value)
    {
      if languageCode.Some? {
        var current := languageCode.value;
        var defaultLanguage := DefaultLanguage(WpmlSettings(store));
        if current != defaultLanguage {
          var configId := ConfigId(store);
          if configId.Some? {
            snapshot := GetOption(store, Suffixed(configId.value, current));
          }
        }
      }
    }
  }

  /**
   * The front end reads exactly the option the admin page edits for the
   * same language, and never the default language's option.
   */
  lemma LoaderReadsEditedOption(store: Store, code: string)
    requires LanguageOption(store, Some(code)).Some?
    ensures var r := Resolution(DefaultLanguage(WpmlSettings(store)), code);
      LanguageOption(store, Some(code)).value == OptionName(ConfigId(store), r)
      && LanguageOption(store, Some(code)).value != OptionBase(ConfigId(store))
  {
    SuffixedInjective(ConfigId(store).value, code, code);
  }
}
