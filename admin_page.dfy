/**
 * The decisions behind the admin options page (`optionsframework_page`)
 * and its language header (`tb_wpml_admin_module_header`): which stored
 * option the form edits, which settings group it posts to, and which
 * submit buttons and language tabs it shows. The markup is not modelled.
 */
module AdminPage {
  import opened Values
  import opened Languages

  /** The store entry holding the options framework's configuration. */
  const FrameworkOption := "optionsframework"

  /** `$optionsframework_settings['id']`, when the framework has recorded one. */
  function ConfigId(store: Store): (id: Option<string>)
    ensures id.Some? <==> FrameworkOption in store && StringAt(store[FrameworkOption], "id").Some?
    ensures id.Some? ==> store[FrameworkOption]["id"] == Str(id.value)
  {
    match GetOption(store, FrameworkOption)
    case None => None
    case Some(config) => StringAt(config, "id")
  }

  /** The default language's option name: the configured id, or the hard fallback. */
  function OptionBase(configId: Option<string>): (base: string)
    ensures configId.Some? ==> base == configId.value
    ensures configId.None? ==> base == FrameworkOption
  {
    configId.GetOr(FrameworkOption)
  }

  /**
   * The option the page edits: the configured id, suffixed with the
   * current language unless it is the default; without an id, the
   * fallback name for every language.
   */
  function OptionName(configId: Option<string>, r: Resolution): (name: string)
    ensures configId.Some? && r.IsDefault() ==> name == configId.value
    ensures configId.Some? && !r.IsDefault() ==> name == Suffixed(configId.value, r.current)
    ensures configId.None? ==> name == FrameworkOption
  {
    match configId
    case None => FrameworkOption
    case Some(id) => if r.defaultLanguage != r.current then Suffixed(id, r.current) else id
  }

  /** The settings group passed to `settings_fields`. */
  function SettingsGroup(r: Resolution): (group: string)
    ensures r.IsDefault() ==> group == FrameworkOption
    ensures !r.IsDefault() ==> group == Suffixed(FrameworkOption, r.current)
  {
    if r.current != r.defaultLanguage then Suffixed(FrameworkOption, r.current) else FrameworkOption
  }

  /** What the options page renders. */
  datatype Page =
    | MissingWpmlWarning
    | SettingsForm(
        language: Resolution,
        optionName: string,    // the option whose values fill the form
        optionBase: string,    // the hidden `option_page_base` field
        settingsGroup: string, // the group given to `settings_fields`
        showMatch: bool)       // whether the "Match Default Language" button is shown

  /** `optionsframework_page` without its markup. */
  function BuildPage(wpmlActive: bool, store: Store, langs: seq<Language>, requested: Option<string>): (p: Page)
    ensures !wpmlActive <==> p.MissingWpmlWarning?
    ensures p.SettingsForm? ==> p.language == ResolveAdmin(WpmlSettings(store), Codes(langs), requested)
    ensures p.SettingsForm? ==> p.language.current in Codes(langs) || p.language.IsDefault()
    ensures p.SettingsForm? ==> p.optionName == OptionName(ConfigId(store), p.language)
    ensures p.SettingsForm? ==> p.optionBase == OptionBase(ConfigId(store))
    ensures p.SettingsForm? ==> p.settingsGroup == SettingsGroup(p.language)
    ensures p.SettingsForm? ==> (p.showMatch <==> !p.language.IsDefault())
  {
    if !wpmlActive then MissingWpmlWarning
    else
      var r := ResolveAdmin(WpmlSettings(store), Codes(langs), requested);
      var configId := ConfigId(store);
      SettingsForm(r, OptionName(configId, r), OptionBase(configId), SettingsGroup(r), r.current != r.defaultLanguage)
  }

  /** The language header above the form. */
  datatype Header = Header(
    language: Resolution,
    activeTabs: seq<bool>, // one tab per language, `class="active"` on the current one
    showMatch: bool)

  /** `tb_wpml_admin_module_header($page)` without its markup. */
  function ModuleHeader(page: string, wpmlActive: bool, store: Store, langs: seq<Language>, requested: Option<string>): (h: Option<Header>)
    ensures h.Some? <==> page == "options" && wpmlActive
    ensures h.Some? ==> h.value.language == ResolveAdmin(WpmlSettings(store), Codes(langs), requested)
    ensures h.Some? ==> |h.value.activeTabs| == |langs|
    ensures h.Some? ==> forall i :: 0 <= i < |langs| ==> (h.value.activeTabs[i] <==> langs[i].code == h.value.language.current)
    ensures h.Some? ==> (h.value.showMatch <==> !h.value.language.IsDefault())
  {
    if page != "options" || !wpmlActive then None
    else
      var r := ResolveAdmin(WpmlSettings(store), Codes(langs), requested);
      var tabs := seq(|langs|, i requires 0 <= i < |langs| => langs[i].code == r.current);
      Some(Header(r, tabs, r.current != r.defaultLanguage))
  }

  /**
   * The header and the form below it are about the same language, and
   * both offer "Match Default Language" exactly when it is not the default.
   */
  lemma HeaderMatchesPage(store: Store, langs: seq<Language>, requested: Option<string>)
    ensures var p := BuildPage(true, store, langs, requested);
      var h := ModuleHeader("options", true, store, langs, requested);
      p.SettingsForm? && h.Some? && h.value.language == p.language && h.value.showMatch == p.showMatch
  {
  }

  /**
   * With distinct language keys, the header marks exactly one tab as
   * active when the current language is in the list, and none otherwise.
   */
  lemma {:induction false} OneActiveTab(store: Store, langs: seq<Language>, requested: Option<string>)
    requires forall i, j :: 0 <= i < j < |langs| ==> langs[i].code != langs[j].code
    ensures var h := ModuleHeader("options", true, store, langs, requested).value;
      (h.language.current in Codes(langs) ==>
        exists i :: 0 <= i < |langs| && h.activeTabs[i] && forall j :: 0 <= j < |langs| && h.activeTabs[j] ==> j == i)
      && (h.language.current !in Codes(langs) ==> forall j :: 0 <= j < |langs| ==> !h.activeTabs[j])
  {
    var h := ModuleHeader("options", true, store, langs, requested).value;
    var keys := Codes(langs);
    if h.language.current in keys {
      var i :| 0 <= i < |keys| && keys[i] == h.language.current;
      assert h.activeTabs[i];
    } else {
      forall j | 0 <= j < |langs|
        ensures !h.activeTabs[j]
      {
        assert keys[j] == langs[j].code;
      }
    }
  }

  /**
   * The default language's form edits the base option, which is what
   * the hidden `option_page_base` field names for "Match Default Language".
   */
  lemma DefaultFormEditsBase(configId: Option<string>, r: Resolution)
    requires r.IsDefault()
    ensures OptionName(configId, r) == OptionBase(configId)
  {
  }

  /**
   * With a configured id, two languages edit the same option only when
   * they are the same language, and no non-default language edits the base.
   */
  lemma {:induction false} OptionNamesSeparateLanguages(id: string, defaultLanguage: string, a: string, b: string)
    ensures OptionName(Some(id), Resolution(defaultLanguage, a)) == OptionName(Some(id), Resolution(defaultLanguage, b))
      <==> a == b
    ensures a != defaultLanguage ==> OptionName(Some(id), Resolution(defaultLanguage, a)) != OptionBase(Some(id))
  {
    SuffixedInjective(id, a, b);
    SuffixedInjective(id, a, defaultLanguage);
    SuffixedInjective(id, b, defaultLanguage);
  }

  /**
   * Without a configured id every language edits the same option,
   * `optionsframework`, while each non-default language posts to its own
   * suffixed settings group.
   */
  lemma FallbackSharesOneOption(a: Resolution, b: Resolution)
    ensures OptionName(None, a) == OptionName(None, b) == FrameworkOption
    ensures !a.IsDefault() ==> SettingsGroup(a) != OptionName(None, a)
  {
    if !a.IsDefault() { SuffixedInjective(FrameworkOption, a.current, a.current); }
  }
}
