/**
 * Language resolution, repeated by the bridge in `tb_wpml_options`,
 * `tb_wpml_optionsframework_init`, `optionsframework_page` and
 * `tb_wpml_admin_module_header`: which language is the default one,
 * and which one the current request is about.
 */
module Languages {
  import opened Values

  /** The store entry holding WPML's own settings. */
  const WpmlSettingsOption := "icl_sitepress_settings"

  /** The default language used when WPML has not recorded one. */
  const FallbackLanguage := "en"

  /** A language as WPML's `icl_get_languages` describes it. */
  datatype Language = Language(
    code: string,
    translatedName: string,
    flagUrl: string,
    url: string,
    active: bool)

  /** The pair of languages every admin and front-end decision depends on. */
  datatype Resolution = Resolution(defaultLanguage: string, current: string) {
    predicate IsDefault() { current == defaultLanguage }
  }

  /** `get_option('icl_sitepress_settings')`, an absent option read as an empty array. */
  function WpmlSettings(store: Store): (settings: Record)
    ensures WpmlSettingsOption in store ==> settings == store[WpmlSettingsOption]
    ensures WpmlSettingsOption !in store ==> settings == map[]
  {
    GetOption(store, WpmlSettingsOption).GetOr(map[])
  }

  /** The default language: WPML's `default_language` setting when set, `en` otherwise. */
  function DefaultLanguage(settings: Record): (d: string)
    ensures "default_language" in settings && settings["default_language"].Str? ==>
      d == settings["default_language"].s
    ensures !("default_language" in settings && settings["default_language"].Str?) ==>
      d == FallbackLanguage
  {
    StringAt(settings, "default_language").GetOr(FallbackLanguage)
  }

  /**
   * The admin side: the language picked by the `themeblvd_lang` query
   * parameter when it names one of WPML's languages, the default
   * language otherwise.
   */
  function ResolveAdmin(settings: Record, keys: seq<string>, requested: Option<string>): (r: Resolution)
    ensures r.defaultLanguage == DefaultLanguage(settings)
    ensures r.current in keys || r.IsDefault()
    ensures requested.Some? && requested.value in keys ==> r.current == requested.value
    ensures requested.None? || requested.value !in keys ==> r.IsDefault()
  {
    var defaultLanguage := DefaultLanguage(settings);
    var current := if requested.Some? then requested.value else defaultLanguage;
    var current := if current in keys then current else defaultLanguage;
    Resolution(defaultLanguage, current)
  }

  /**
   * The front-end side: WPML's `ICL_LANGUAGE_CODE` constant, when it is
   * defined, taken as is (no check against the language list).
   */
  function ResolveFrontEnd(settings: Record, languageCode: Option<string>): (r: Option<Resolution>)
    ensures r.Some? <==> languageCode.Some?
    ensures r.Some? ==> r.value.current == languageCode.value
    ensures r.Some? ==> r.value.defaultLanguage == DefaultLanguage(settings)
  {
    match languageCode
    case None => None
    case Some(code) => Some(Resolution(DefaultLanguage(settings), code))
  }

  /** The keys of `icl_get_languages()`, which WPML keys by language code. */
  function Codes(langs: seq<Language>): (keys: seq<string>)
    ensures |keys| == |langs|
    ensures forall i :: 0 <= i < |langs| ==> keys[i] == langs[i].code
  {
    seq(|langs|, i requires 0 <= i < |langs| => langs[i].code)
  }

  /**
   * Resolution never depends on which unknown value was requested:
   * every request outside the language list lands on the default.
   */
  lemma UnknownRequestsAgree(settings: Record, keys: seq<string>, a: Option<string>, b: Option<string>)
    requires a.None? || a.value !in keys
    requires b.None? || b.value !in keys
    ensures ResolveAdmin(settings, keys, a) == ResolveAdmin(settings, keys, b)
    ensures ResolveAdmin(settings, keys, a) == ResolveAdmin(settings, keys, None)
  {
  }

  /** Asking for the resolved language again resolves to the same pair. */
  lemma ResolveAdminStable(settings: Record, keys: seq<string>, requested: Option<string>)
    ensures var r := ResolveAdmin(settings, keys, requested);
      ResolveAdmin(settings, keys, Some(r.current)) == r
  {
  }
}
