# Theme Blvd WPML Bridge — a Dafny model

The Theme Blvd WPML Bridge is a WordPress plugin. It makes the Theme Blvd
framework's theme options per-language under the WPML multilingual plugin.
The default language keeps the framework's option (named by the framework's
configured `id`). Every other language gets its own option, `<id>_<code>`,
and its own settings group, `optionsframework_<code>`.

This project models the plugin's decision logic. The host services are
explicit values:

- the WordPress option store is a `map<string, Record>`;
- WPML's language list is a sequence of language codes, or of `Language` descriptors;
- the framework's defaults are a `Record`, and its schema is a sequence of `Field`s;
- the registered `of_sanitize_<type>` filters are a set of type names, with an uninterpreted `Sanitizer` function;
- `$_GET`, `$_POST`, `ICL_LANGUAGE_CODE` and "is WPML installed" are parameters.

Modules:

- `Values` (`values.dfy`): PHP values (`Str` / `Arr`), `get_option`, `isset` on a string entry, and the `_<code>` suffix.
- `Languages` (`languages.dfy`): the default language (WPML's `default_language`, else `en`). Also the admin language (`themeblvd_lang` if it is a known language, else the default) and the front-end language (`ICL_LANGUAGE_CODE`).
- `AdminPage` (`admin_page.dfy`): `optionsframework_page` and `tb_wpml_admin_module_header` without markup. Covers the edited option name, the `option_page_base` field, the settings group, the "Match Default Language" button and the active language tab.
- `Registrar` (`registrar.dfy`): `tb_wpml_optionsframework_init` and `tb_wpml_optionsframework_setdefaults`. A `Site` class holds the option store and the `register_setting` calls. Its loop is proved against the specification functions `Seeded` and `Registrations`.
- `FieldIds` (`field_ids.dfy`): `preg_replace('/\W/', '', strtolower($id))`.
- `Validator` (`validator.dfy`): `tb_wpml_optionsframework_validate`. It dispatches on the mode with precedence match > reset > update > fallback. The update loop is proved against the fold `Walk`, and its result is described without the loop by `Submitted`.
- `Loader` (`loader.dfy`): `tb_wpml_options`, as a `ThemeSettings` class whose snapshot field stands for the global `$_themeblvd_theme_settings`.
- `Navigation` (`navigation.dfy`): the flag list string built by `tb_wpml_get_flaglist`, and the breadcrumbs display rule of `tb_wpml_breadcrumbs`.

Two behaviours of the code are easy to miss; the model keeps them as written:

- The front-end loader assigns `get_option("<id>_<code>")` whenever the language is not the default and an id exists. If that option is absent, the snapshot becomes `false`; it does not keep the framework's snapshot. `Loader.ThemeSettings.ApplyLanguage` states this.
- Without a configured framework id, the options page edits `optionsframework` for every language. The registrar, however, seeds and registers `optionsframework_<code>`. `AdminPage.FallbackSharesOneOption` states the page's side. The source comments call this fallback one that should never be used.

## Model

| member | source | states |
|---|---|---|
| `Values.Suffixed` | theme-blvd-wpml-bridge.php:486 | `<base>_<code>` is the base, an underscore, then the code |
| `Values.SuffixedInjective` | theme-blvd-wpml-bridge.php:481-486 | two languages never share a suffixed name, and a suffixed name never equals its base |
| `Languages.DefaultLanguage` | theme-blvd-wpml-bridge.php:459-463 | the default language is WPML's `default_language` setting when it is set, otherwise `en` |
| `Languages.ResolveAdmin` | theme-blvd-wpml-bridge.php:465-470 | the admin language is always a listed language or the default; a listed `themeblvd_lang` is taken as is, and an absent or unlisted one yields the default |
| `Languages.ResolveFrontEnd` | theme-blvd-wpml-bridge.php:64-73 | the front end resolves a language only when `ICL_LANGUAGE_CODE` is defined, and takes it unchecked |
| `Languages.Codes` | theme-blvd-wpml-bridge.php:454-457 | the language check list holds the languages' codes, one per language, in order |
| `Languages.UnknownRequestsAgree` | theme-blvd-wpml-bridge.php:465-470 | every absent or unlisted request resolves exactly as no request |
| `Languages.ResolveAdminStable` | theme-blvd-wpml-bridge.php:573-578 | requesting the resolved language again gives the same resolution |
| `AdminPage.ConfigId` | theme-blvd-wpml-bridge.php:473-478 | the framework id is present exactly when the `optionsframework` option stores a string `id` |
| `AdminPage.OptionBase` | theme-blvd-wpml-bridge.php:476-492 | the base option is the configured id, or `optionsframework` without one |
| `AdminPage.OptionName` | theme-blvd-wpml-bridge.php:476-492 | with an id, the edited option is the id for the default language and `<id>_<code>` otherwise; without an id, it is `optionsframework` for every language |
| `AdminPage.SettingsGroup` | theme-blvd-wpml-bridge.php:494-497 | the settings group is `optionsframework`, suffixed with the language exactly when it is not the default |
| `AdminPage.BuildPage` | theme-blvd-wpml-bridge.php:437-523 | without WPML the page is only a warning; otherwise the form uses the language resolved against the languages' codes, edits `OptionName`, posts `OptionBase` and `SettingsGroup`, and shows "Match Default Language" exactly for a non-default language |
| `AdminPage.ModuleHeader` | theme-blvd-wpml-bridge.php:551-601 | the header appears only on the options page with WPML present; it is about the language resolved against the languages' codes, has one tab per language, active exactly where the code is the current one, and a match button exactly for a non-default language |
| `AdminPage.HeaderMatchesPage` | theme-blvd-wpml-bridge.php:573-578 | the header and the form resolve the same language and agree on showing the match button |
| `AdminPage.OneActiveTab` | theme-blvd-wpml-bridge.php:590-591 | with distinct codes, exactly one tab is active when the current language is listed, and none otherwise |
| `AdminPage.DefaultFormEditsBase` | theme-blvd-wpml-bridge.php:476-486 | the default language's form edits the option named by the hidden `option_page_base` field |
| `AdminPage.OptionNamesSeparateLanguages` | theme-blvd-wpml-bridge.php:481-486 | with an id, two languages edit the same option iff they are the same language, and a non-default language never edits the base option |
| `AdminPage.FallbackSharesOneOption` | theme-blvd-wpml-bridge.php:488-497 | without an id every language edits `optionsframework`, while a non-default language posts a different, suffixed settings group |
| `Registrar.AddIfAbsent` | theme-blvd-wpml-bridge.php:233-235 | adding an option never replaces an existing one and only ever adds its own name |
| `Registrar.SeededCovers` | theme-blvd-wpml-bridge.php:289-293 | after seeding, every non-default language has an option under `<name>_<code>` |
| `Registrar.SeededPreserves` | theme-blvd-wpml-bridge.php:291-293 | seeding never changes or removes an option that was already stored |
| `Registrar.SeededOnlyAdds` | theme-blvd-wpml-bridge.php:289-293 | every option seeding adds is a non-default language's suffixed name and holds the framework defaults |
| `Registrar.SeededIdempotent` | theme-blvd-wpml-bridge.php:291-293 | seeding twice leaves the store as seeding once |
| `Registrar.DefaultOptionUntouched` | theme-blvd-wpml-bridge.php:286-290 | options other than non-default languages' suffixed names are unchanged, including the unsuffixed default option and the default language's suffixed name |
| `Registrar.RegistrationsExact` | theme-blvd-wpml-bridge.php:294-295 | the registered groups are exactly `optionsframework_<code>` bound to `<name>_<code>`, one per non-default language |
| `Registrar.SecondRunSeedsNothing` | theme-blvd-wpml-bridge.php:267-297 | seeding keeps the option name and default language the registrar reads, so a second run leaves the store unchanged |
| `Registrar.ThreeLanguageScenario` | theme-blvd-wpml-bridge.php:289-297 | with en (default), fr, de and id `theme`, an empty store gains exactly `theme_fr` and `theme_de` holding the defaults |
| `Registrar.RegistrarServesPage` | theme-blvd-wpml-bridge.php:289-297 | with a configured framework id, for a non-default language the option the page edits was seeded, and the group it posts to was registered for that option |
| `Registrar.Site.AddOption` | theme-blvd-wpml-bridge.php:235 | `add_option` leaves an existing option alone and stores the value otherwise |
| `Registrar.Site.RegisterSetting` | theme-blvd-wpml-bridge.php:295 | each `register_setting` call appends one group/option pair |
| `Registrar.Site.SetDefaults` | theme-blvd-wpml-bridge.php:228-236 | the defaults are added under the given name if it is absent |
| `Registrar.Site.InitLanguages` | theme-blvd-wpml-bridge.php:260-297 | without WPML nothing changes; otherwise the store becomes `Seeded` and the registrations grow by `Registrations`, for the stored option name and default language |
| `FieldIds.ToLower` | theme-blvd-wpml-bridge.php:369 | `strtolower` keeps the length and lowers each character |
| `FieldIds.StripNonWord` | theme-blvd-wpml-bridge.php:369 | removing `\W` never lengthens an id and keeps only word characters |
| `FieldIds.StripNonWordChar` | theme-blvd-wpml-bridge.php:369 | a single character survives the strip exactly when it is a word character |
| `FieldIds.StripNonWordAppend` | theme-blvd-wpml-bridge.php:369 | stripping a concatenation is concatenating the stripped parts, so every word character survives, in order |
| `FieldIds.NormaliseId` | theme-blvd-wpml-bridge.php:369 | a normalised id holds only `a`-`z`, `0`-`9` and `_`, and is no longer than the id |
| `FieldIds.NormaliseIdPieces` | theme-blvd-wpml-bridge.php:369 | normalisation works piece by piece; a word character becomes its lower-case form and any other character disappears |
| `FieldIds.NormalisedIsFixed` | theme-blvd-wpml-bridge.php:369 | ids already made of `a`-`z`, `0`-`9` and `_` normalise to themselves |
| `FieldIds.NormaliseIdIdempotent` | theme-blvd-wpml-bridge.php:369 | normalising twice is normalising once |
| `Validator.Unchecked` | theme-blvd-wpml-bridge.php:376-381 | a missing multicheck gets exactly its sub-option keys, each `'0'` |
| `Validator.UncheckAll` | theme-blvd-wpml-bridge.php:378-380 | the sub-option loop maps exactly the sub-option keys, each to `'0'` |
| `Validator.CleanSubmission` | theme-blvd-wpml-bridge.php:356-391 | the update loop returns `Cleaned`, the fold of one step per schema entry |
| `Validator.Validate` | theme-blvd-wpml-bridge.php:341-395 | "match" returns the option named by `option_page_base` unchanged and ignores the input; otherwise "reset" returns the defaults with the restored notice; otherwise "update" returns the cleaned submission with the saved notice; otherwise the defaults with no notice |
| `Validator.CleanedKeys` | theme-blvd-wpml-bridge.php:359-387 | a key is in the cleaned result iff it is the normalised id of an entry with an id, a type and a registered sanitizer for that type |
| `Validator.CleanedKeysNormalised` | theme-blvd-wpml-bridge.php:369-385 | every key of the cleaned result is made of `a`-`z`, `0`-`9` and `_` |
| `Validator.WalkKeepsSubmission` | theme-blvd-wpml-bridge.php:371-381 | the loop never changes a submitted value, and ids no entry normalises to stay as submitted |
| `Validator.CleanedField` | theme-blvd-wpml-bridge.php:371-386 | with distinct ids, each kept entry is its type's sanitizer applied to `Submitted`: the submitted value, `'0'` for a missing checkbox, all-`'0'` sub-options for a missing multicheck |
| `Validator.MissingCheckboxIsUnchecked` | theme-blvd-wpml-bridge.php:371-374 | a checkbox absent from the submission is sanitized from `'0'` |
| `Validator.MissingMulticheckIsUnchecked` | theme-blvd-wpml-bridge.php:376-381 | a multicheck absent from the submission is sanitized from its sub-options all set to `'0'` |
| `Validator.SubmittedFieldPassesThrough` | theme-blvd-wpml-bridge.php:383-386 | a submitted field reaches its sanitizer exactly as submitted |
| `Validator.UnsanitizedFieldDropped` | theme-blvd-wpml-bridge.php:383-386 | with distinct ids, an entry whose type has no sanitizer is absent from the result |
| `Validator.CleanedKeysIgnoreInput` | theme-blvd-wpml-bridge.php:359-387 | which fields an update stores does not depend on which fields were submitted |
| `Loader.LanguageOption` | theme-blvd-wpml-bridge.php:64-81 | the loader reads an option iff the language constant is defined, differs from the default and an id exists, and that option is `<id>_<code>` |
| `Loader.ThemeSettings.ApplyLanguage` | theme-blvd-wpml-bridge.php:58-85 | the snapshot is unchanged when no option is read, and becomes the stored `<id>_<code>` (or `false` if absent) otherwise |
| `Loader.LoaderReadsEditedOption` | theme-blvd-wpml-bridge.php:77-80 | the front end reads exactly the option the admin page edits for that language, never the base option |
| `Navigation.ItemClasses` | theme-blvd-wpml-bridge.php:107-108 | the class attribute starts with the language code and is extended, by ` active`, exactly for the active language |
| `Navigation.FlagItemMarkup` | theme-blvd-wpml-bridge.php:107-113 | one iteration appends exactly the language's `<li>` item |
| `Navigation.FlagList` | theme-blvd-wpml-bridge.php:98-117 | the output is the wrapped list of items, one per language in order, and is empty exactly when there are no languages |
| `Navigation.FlagItemAt` | theme-blvd-wpml-bridge.php:106-114 | each language contributes its own item at its own position |
| `Navigation.BreadcrumbsDisplay` | theme-blvd-wpml-bridge.php:150-159 | the posts homepage always hides; a page's or post's own non-empty, non-`default` setting wins; otherwise the site-wide setting applies |
| `Navigation.ShowsBreadcrumbs` | theme-blvd-wpml-bridge.php:160-161 | breadcrumbs are shown exactly when the setting in force is `show`, and never on the posts homepage |
| `Navigation.PostSettingOverridesSite` | theme-blvd-wpml-bridge.php:151-156 | on a page or post, its own `show`/`hide` decides regardless of the site-wide setting |

## Left out

- All HTML output of `optionsframework_page`, `tb_wpml_admin_module_header` and `tb_wpml_breadcrumbs`: presentation built on framework functions that are not part of this model (`optionsframework_fields`, `settings_fields`, `screen_icon`). The header's flag image and translated name are left out with it.
- Hook wiring (`add_action`, `remove_action`, `tb_wpml_actions`) and style loading (`tb_wpml_optionsframework_load_styles`): dispatch and asset plumbing, not decisions.
- The `tb_wpml_flaglist` filter: `Navigation.FlagList` returns the string before `apply_filters`.
- WordPress, WPML and framework internals are parameters: `icl_get_languages`, the option store behind `get_option`/`add_option`, `of_get_default_values`, `themeblvd_get_formatted_options`, `has_filter`/`apply_filters` for `of_sanitize_<type>`, `get_post_meta`, `themeblvd_get_option`, `is_page`/`is_single`/`is_home`. `get_option`'s trimming of option names is not modelled.
- `add_settings_error` is kept only as the `Notice` tag; `__()` translation and `settings_errors()` are left out.
- `$_GET`, `$_POST` and `ICL_LANGUAGE_CODE` are explicit parameters, not ambient globals.
- PHP's loose `!=`, `==` and `in_array` are modelled as string equality. They differ only between numeric strings, which language codes are not.
- A stored `id` or `default_language` that is not a string is treated as unset.
- `Registrar.Site.SetDefaults`: `of_get_default_values()` is taken as an array, so its `isset($values)` guard always holds.
- `Registrar.Site.InitLanguages`: `register_setting`'s sanitize callback, always `tb_wpml_optionsframework_validate`, is not recorded.
- `Validator.CleanedField`, `Validator.MissingCheckboxIsUnchecked`, `Validator.MissingMulticheckIsUnchecked`, `Validator.SubmittedFieldPassesThrough` and `Validator.UnsanitizedFieldDropped` assume that no two schema entries normalise to the same id. With duplicate ids the last entry wins, and a value an earlier entry defaulted is seen by a later one. `Validator.CleanSubmission` and `Validator.CleanedKeys` cover that case; these lemmas do not.
- Multicheck sub-option keys are strings; a missing `options` entry is an empty list.
- `Validator.Field` keeps only an entry's id, type and sub-option keys, so a `Sanitizer` sees only those. The real `of_sanitize_<type>` filter receives the whole option array, including `std`, labels and option values.
