/**
 * The per-language settings registrar: `tb_wpml_optionsframework_init`
 * and `tb_wpml_optionsframework_setdefaults`. For every WPML language
 * other than the default it seeds the option `<name>_<code>` with the
 * framework's default values when that option is absent, and registers
 * the settings group `optionsframework_<code>` for it.
 */
module Registrar {
  import opened Values
  import opened Languages
  import opened AdminPage

  /** One `register_setting($group, $option_name, …)` call. */
  datatype Registration = Registration(group: string, optionName: string)

  /** `add_option`: stores `value` under `name` unless an option of that name exists. */
  function AddIfAbsent(store: Store, name: string, value: Record): (r: Store)
    ensures name in r && r.Keys == store.Keys + {name}
    ensures r[name] == if name in store then store[name] else value
    ensures forall k :: k in store ==> r[k] == store[k]
  {
    if name in store then store else store[name := value]
  }

  /** The store after seeding, language by language, every non-default language's option. */
  function Seeded(store: Store, name: string, langs: seq<string>, defaultLanguage: string, defaults: Record): Store
    decreases |langs|
  {
    if |langs| == 0 then store
    else
      var before := Seeded(store, name, langs[..|langs| - 1], defaultLanguage, defaults);
      var code := langs[|langs| - 1];
      if code != defaultLanguage then AddIfAbsent(before, Suffixed(name, code), defaults) else before
  }

  /** The `register_setting` calls made for the languages, in order. */
  function Registrations(name: string, langs: seq<string>, defaultLanguage: string): seq<Registration>
    decreases |langs|
  {
    if |langs| == 0 then []
    else
      var before := Registrations(name, langs[..|langs| - 1], defaultLanguage);
      var code := langs[|langs| - 1];
      if code != defaultLanguage
      then before + [Registration(Suffixed(FrameworkOption, code), Suffixed(name, code))]
      else before
  }

  /** The option name a non-default language's values are kept under. */
  ghost predicate SeededName(name: string, langs: seq<string>, defaultLanguage: string, k: string) {
    exists i :: 0 <= i < |langs| && langs[i] != defaultLanguage && k == Suffixed(name, langs[i])
  }

  /** After seeding, every non-default language has an option under its suffixed name. */
  lemma {:induction false} SeededCovers(store: Store, name: string, langs: seq<string>, defaultLanguage: string, defaults: Record)
    ensures forall i :: 0 <= i < |langs| && langs[i] != defaultLanguage ==>
      Suffixed(name, langs[i]) in Seeded(store, name, langs, defaultLanguage, defaults)
    decreases |langs|
  {
    if |langs| > 0 {
      var prefix := langs[..|langs| - 1];
      SeededCovers(store, name, prefix, defaultLanguage, defaults);
      forall i | 0 <= i < |langs| - 1 && langs[i] != defaultLanguage
        ensures Suffixed(name, langs[i]) in Seeded(store, name, langs, defaultLanguage, defaults)
      {
        assert prefix[i] == langs[i];
      }
    }
  }

  /** Seeding never overwrites an option that was already stored. */
  lemma {:induction false} SeededPreserves(store: Store, name: string, langs: seq<string>, defaultLanguage: string, defaults: Record)
    ensures forall k :: k in store ==>
      k in Seeded(store, name, langs, defaultLanguage, defaults) && Seeded(store, name, langs, defaultLanguage, defaults)[k] == store[k]
    decreases |langs|
  {
    if |langs| > 0 {
      SeededPreserves(store, name, langs[..|langs| - 1], defaultLanguage, defaults);
    }
  }

  /**
   * Seeding only adds the suffixed names of non-default languages, and
   * each option it adds holds the framework's default values.
   */
  lemma {:induction false} SeededOnlyAdds(store: Store, name: string, langs: seq<string>, defaultLanguage: string, defaults: Record)
    ensures forall k :: k in Seeded(store, name, langs, defaultLanguage, defaults) && k !in store ==>
      Seeded(store, name, langs, defaultLanguage, defaults)[k] == defaults && SeededName(name, langs, defaultLanguage, k)
    decreases |langs|
  {
    if |langs| > 0 {
      var prefix := langs[..|langs| - 1];
      SeededOnlyAdds(store, name, prefix, defaultLanguage, defaults);
      forall k | k in Seeded(store, name, langs, defaultLanguage, defaults) && k !in store
        ensures Seeded(store, name, langs, defaultLanguage, defaults)[k] == defaults && SeededName(name, langs, defaultLanguage, k)
      {
        if k in Seeded(store, name, prefix, defaultLanguage, defaults) {
          var i :| 0 <= i < |prefix| && prefix[i] != defaultLanguage && k == Suffixed(name, prefix[i]);
          assert langs[i] == prefix[i];
        } else {
          assert langs[|langs| - 1] != defaultLanguage && k == Suffixed(name, langs[|langs| - 1]);
        }
      }
    }
  }

  /** Seeding a second time leaves the store as the first seeding left it. */
  lemma SeededIdempotent(store: Store, name: string, langs: seq<string>, defaultLanguage: string, defaults: Record)
    ensures var once := Seeded(store, name, langs, defaultLanguage, defaults);
      Seeded(once, name, langs, defaultLanguage, defaults) == once
  {
    var once := Seeded(store, name, langs, defaultLanguage, defaults);
    var twice := Seeded(once, name, langs, defaultLanguage, defaults);
    SeededPreserves(once, name, langs, defaultLanguage, defaults);
    SeededOnlyAdds(once, name, langs, defaultLanguage, defaults);
    SeededCovers(store, name, langs, defaultLanguage, defaults);
    assert twice.Keys == once.Keys;
  }

  /**
   * Options outside the non-default languages' suffixed names are left
   * alone: in particular the default language's option, stored under the
   * unsuffixed name, and the default language's own suffixed name.
   */
  lemma DefaultOptionUntouched(store: Store, name: string, langs: seq<string>, defaultLanguage: string, defaults: Record)
    ensures var seeded := Seeded(store, name, langs, defaultLanguage, defaults);
      forall k :: !SeededName(name, langs, defaultLanguage, k) ==>
        (k in seeded <==> k in store) && (k in store ==> seeded[k] == store[k])
    ensures !SeededName(name, langs, defaultLanguage, name)
    ensures !SeededName(name, langs, defaultLanguage, Suffixed(name, defaultLanguage))
  {
    SeededPreserves(store, name, langs, defaultLanguage, defaults);
    SeededOnlyAdds(store, name, langs, defaultLanguage, defaults);
  }

  /**
   * The groups registered are exactly `optionsframework_<code>` bound to
   * `<name>_<code>`, one for each non-default language.
   */
  lemma {:induction false} RegistrationsExact(name: string, langs: seq<string>, defaultLanguage: string, reg: Registration)
    ensures reg in Registrations(name, langs, defaultLanguage) <==>
      exists i :: 0 <= i < |langs| && langs[i] != defaultLanguage &&
        reg == Registration(Suffixed(FrameworkOption, langs[i]), Suffixed(name, langs[i]))
    decreases |langs|
  {
    if |langs| > 0 {
      var prefix := langs[..|langs| - 1];
      RegistrationsExact(name, prefix, defaultLanguage, reg);
      if reg in Registrations(name, langs, defaultLanguage) {
        if reg in Registrations(name, prefix, defaultLanguage) {
          var i :| 0 <= i < |prefix| && prefix[i] != defaultLanguage &&
            reg == Registration(Suffixed(FrameworkOption, prefix[i]), Suffixed(name, prefix[i]));
          assert langs[i] == prefix[i];
        } else {
          assert langs[|langs| - 1] != defaultLanguage;
        }
      } else {
        forall i | 0 <= i < |langs| && langs[i] != defaultLanguage
          ensures reg != Registration(Suffixed(FrameworkOption, langs[i]), Suffixed(name, langs[i]))
        {
          if i < |langs| - 1 { assert prefix[i] == langs[i]; }
        }
      }
    }
  }

  /**
   * Seeding keeps the framework configuration the registrar reads its
   * option name from, and, when WPML's settings are stored, the default
   * language; so a second run of the registrar seeds nothing new.
   */
  lemma SecondRunSeedsNothing(store: Store, langs: seq<string>, defaults: Record)
    requires WpmlSettingsOption in store
    ensures var name := OptionBase(ConfigId(store));
      var defaultLanguage := DefaultLanguage(WpmlSettings(store));
      var once := Seeded(store, name, langs, defaultLanguage, defaults);
      OptionBase(ConfigId(once)) == name
      && DefaultLanguage(WpmlSettings(once)) == defaultLanguage
      && Seeded(once, name, langs, defaultLanguage, defaults) == once
  {
    var name := OptionBase(ConfigId(store));
    var defaultLanguage := DefaultLanguage(WpmlSettings(store));
    var once := Seeded(store, name, langs, defaultLanguage, defaults);
    SeededPreserves(store, name, langs, defaultLanguage, defaults);
    DefaultOptionUntouched(store, name, langs, defaultLanguage, defaults);
    if FrameworkOption !in store {
      assert name == FrameworkOption;
      assert FrameworkOption !in once;
    }
    SeededIdempotent(store, name, langs, defaultLanguage, defaults);
  }

  /**
   * Languages en (the default), fr and de, framework id `theme`, defaults
   * `{layout: grid}`: seeding an empty store creates `theme_fr` and
   * `theme_de` holding the defaults, and nothing for `en`.
   */
  lemma ThreeLanguageScenario()
    ensures var defaults := map["layout" := Str("grid")];
      var seeded := Seeded(map[], "theme", ["en", "fr", "de"], "en", defaults);
      seeded == map["theme_fr" := defaults, "theme_de" := defaults]
  {
    var defaults := map["layout" := Str("grid")];
    var langs := ["en", "fr", "de"];
    assert langs[..2] == ["en", "fr"] && ["en", "fr"][..1] == ["en"] && ["en"][..0] == [];
    assert Seeded(map[], "theme", ["en"], "en", defaults) == map[];
    assert Suffixed("theme", "fr") == "theme_fr" && Suffixed("theme", "de") == "theme_de";
    assert Seeded(map[], "theme", ["en", "fr"], "en", defaults) == map["theme_fr" := defaults];
  }

  /** The host's option store and its list of registered settings. */
  class Site {
    var options: Store
    var registered: seq<Registration>

    constructor (options: Store)
      ensures this.options == options && registered == []
    {
      this.options := options;
      registered := [];
    }

    /** `add_option($name, $value)`: never replaces an existing option. */
    method AddOption(name: string, value: Record)
      modifies this`options
      ensures options == AddIfAbsent(old(options), name, value)
    {
      if name !in options {
        options := options[name := value];
      }
    }

    /** `register_setting($group, $name, 'tb_wpml_optionsframework_validate')`. */
    method RegisterSetting(group: string, name: string)
      modifies this`registered
      ensures registered == old(registered) + [Registration(group, name)]
    {
      registered := registered + [Registration(group, name)];
    }

    /** `tb_wpml_optionsframework_setdefaults($name)`: add the default values under `name`. */
    method SetDefaults(name: string, defaults: Record)
      modifies this`options
      ensures options == AddIfAbsent(old(options), name, defaults)
    {
      AddOption(name, defaults);
    }

    /**
     * `tb_wpml_optionsframework_init`: nothing when WPML is missing;
     * otherwise, for each language other than the default, seed its
     * option if it holds nothing and register its settings group.
     */
    method InitLanguages(wpmlActive: bool, langs: seq<string>, defaults: Record)
      modifies this
      ensures !wpmlActive ==> options == old(options) && registered == old(registered)
      ensures wpmlActive ==>
        var name := OptionBase(ConfigId(old(options)));
        var defaultLanguage := DefaultLanguage(WpmlSettings(old(options)));
        options == Seeded(old(options), name, langs, defaultLanguage, defaults)
        && registered == old(registered) + Registrations(name, langs, defaultLanguage)
    {
      if !wpmlActive {
        return;
      }
      var name := OptionBase(ConfigId(options));
      var defaultLanguage := DefaultLanguage(WpmlSettings(options));
      for i := 0 to |langs|
        invariant options == Seeded(old(options), name, langs[..i], defaultLanguage, defaults)
        invariant registered == old(registered) + Registrations(name, langs[..i], defaultLanguage)
      {
        assert langs[..i + 1][..i] == langs[..i];
        var code := langs[i];
        if code != defaultLanguage {
          var key := Suffixed(name, code);
          if Falsy(GetOption(options, key)) {
            SetDefaults(key, defaults);
          }
          RegisterSetting(Suffixed(FrameworkOption, code), key);
        }
      }
      assert langs[..|langs|] == langs;
    }
  }

  /**
   * The registrar seeds and registers exactly the option and group the
   * admin page edits and posts to for a non-default language.
   */
  lemma RegistrarServesPage(store: Store, langs: seq<Language>, requested: Option<string>, defaults: Record)
    requires ConfigId(store).Some?
    ensures var p := BuildPage(true, store, langs, requested);
      var name := OptionBase(ConfigId(store));
      var defaultLanguage := DefaultLanguage(WpmlSettings(store));
      !p.language.IsDefault() ==>
        p.optionName in Seeded(store, name, Codes(langs), defaultLanguage, defaults)
        && Registration(p.settingsGroup, p.optionName) in Registrations(name, Codes(langs), defaultLanguage)
  {
    var p := BuildPage(true, store, langs, requested);
    var name := OptionBase(ConfigId(store));
    var defaultLanguage := DefaultLanguage(WpmlSettings(store));
    var keys := Codes(langs);
    if !p.language.IsDefault() {
      var i :| 0 <= i < |keys| && keys[i] == p.language.current;
      SeededCovers(store, name, keys, defaultLanguage, defaults);
      RegistrationsExact(name, keys, defaultLanguage, Registration(p.settingsGroup, p.optionName));
    }
  }
}
