/**
 * The two front-end navigation decisions: the language flag list
 * (`tb_wpml_get_flaglist`, before the `tb_wpml_flaglist` filter) and
 * whether the WPML breadcrumbs are shown (`tb_wpml_breadcrumbs`).
 */
module Navigation {
  import opened Languages

  const ListOpen := "<div class=\"tb-wpml-flaglist\">" + "<ul>"
  const ListClose := "</ul>" + "</div><!-- .tb-wpml-flaglist (end) -->"

  /** The `class` attribute of a language's item: its code, plus `active` for the current one. */
  function ItemClasses(lang: Language): (classes: string)
    ensures |classes| >= |lang.code| && classes[..|lang.code|] == lang.code
    ensures lang.active <==> |classes| > |lang.code|
    ensures lang.active ==> classes[|lang.code|..] == " active"
  {
    if lang.active then lang.code + " active" else lang.code
  }

  /** One `<li>` with the flag image linking to the language's version of the page. */
  function FlagItem(lang: Language): string {
    "<li class=\"" + ItemClasses(lang) + "\">"
    + "<a href=\"" + lang.url + "\" title=\"" + lang.translatedName + "\">"
    + "<img src=\"" + lang.flagUrl + "\" alt=\"" + lang.translatedName + "\" />"
    + "</a>"
    + "</li>"
  }

  /** The rendering of each element, joined in order. */
  function Concat<T>(xs: seq<T>, render: T -> string): string
    decreases |xs|
  {
    if |xs| == 0 then "" else Concat(xs[..|xs| - 1], render) + render(xs[|xs| - 1])
  }

  /** The items of the languages, in order. */
  function FlagItems(langs: seq<Language>): string {
    Concat(langs, FlagItem)
  }

  /** The whole list; nothing at all when WPML lists no languages. */
  function FlagListMarkup(langs: seq<Language>): string {
    if |langs| == 0 then "" else ListOpen + FlagItems(langs) + ListClose
  }

  /** One iteration of the flag-list loop: the markup for one language. */
  method FlagItemMarkup(lang: Language) returns (item: string)
    ensures item == FlagItem(lang)
  {
    var classes := lang.code;
    if lang.active {
      classes := classes + " active";
    }
    item := "<li class=\"" + classes + "\">";
    item := item + "<a href=\"" + lang.url + "\" title=\"" + lang.translatedName + "\">";
    item := item + "<img src=\"" + lang.flagUrl + "\" alt=\"" + lang.translatedName + "\" />";
    item := item + "</a>";
    item := item + "</li>";
  }

  /** Build the flag list, appending one item per language. */
  method FlagList(langs: seq<Language>) returns (output: string)
    ensures output == FlagListMarkup(langs)
    ensures output == "" <==> |langs| == 0
  {
    output := "";
    if |langs| > 0 {
      output := output + "<div class=\"tb-wpml-flaglist\">";
      output := output + "<ul>";
      assert output == ListOpen;
      for i := 0 to |langs|
        invariant output == ListOpen + FlagItems(langs[..i])
      {
        ConcatStep(ListOpen, langs, FlagItem, i);
        var item := FlagItemMarkup(langs[i]);
        output := output + item;
      }
      assert langs[..|langs|] == langs;
      ghost var items := FlagItems(langs);
      assert output == ListOpen + items;
      output := output + "</ul>";
      output := output + "</div><!-- .tb-wpml-flaglist (end) -->";
      assert output == ListOpen + items + ListClose;
      assert |output| >= |ListOpen| > 0;
    }
  }

  /** One more element appends its rendering, after whatever came before. */
  lemma ConcatStep<T>(before: string, xs: seq<T>, render: T -> string, i: nat)
    requires i < |xs|
    ensures before + Concat(xs[..i + 1], render) == (before + Concat(xs[..i], render)) + render(xs[i])
  {
    assert xs[..i + 1][..i] == xs[..i];
  }

  /** Joining the renderings of two lists is joining each list's renderings. */
  lemma {:induction false} ConcatAppend<T>(a: seq<T>, b: seq<T>, render: T -> string)
    ensures Concat(a + b, render) == Concat(a, render) + Concat(b, render)
    decreases |b|
  {
    if |b| > 0 {
      var front := b[..|b| - 1];
      assert (a + b)[..|a + b| - 1] == a + front;
      ConcatAppend(a, front, render);
    } else {
      assert a + b == a;
    }
  }

  /** Each element's rendering sits between those of the elements before and after it. */
  lemma ConcatAt<T>(xs: seq<T>, render: T -> string, i: nat)
    requires i < |xs|
    ensures Concat(xs, render) == Concat(xs[..i], render) + render(xs[i]) + Concat(xs[i + 1..], render)
  {
    var front, back := xs[..i + 1], xs[i + 1..];
    assert xs == front + back;
    ConcatAppend(front, back, render);
    assert front[..|front| - 1] == xs[..i] && front[|front| - 1] == xs[i];
  }

  /** Every language contributes exactly its own item, in its place in the list. */
  lemma FlagItemAt(langs: seq<Language>, i: nat)
    requires i < |langs|
    ensures FlagItems(langs) == FlagItems(langs[..i]) + FlagItem(langs[i]) + FlagItems(langs[i + 1..])
  {
    ConcatAt(langs, FlagItem, i);
  }

  /** PHP truthiness of a string: `''` and `'0'` are falsy. */
  predicate FalsyString(s: string) {
    s == "" || s == "0"
  }

  /**
   * The breadcrumbs setting in force: a page or post's own
   * `_tb_breadcrumbs` meta unless it is empty or `default`, then the
   * site-wide `breadcrumbs` option; always `hide` on the posts homepage.
   * `siteSetting` is the framework's answer for that option, already
   * defaulted to `show`.
   */
  function BreadcrumbsDisplay(singular: bool, postMeta: string, siteSetting: string, home: bool): (display: string)
    ensures home ==> display == "hide"
    ensures !home && singular && !FalsyString(postMeta) && postMeta != "default" ==> display == postMeta
    ensures !home && (!singular || FalsyString(postMeta) || postMeta == "default") ==> display == siteSetting
  {
    var display := if singular then postMeta else "";
    var display := if FalsyString(display) || display == "default" then siteSetting else display;
    if home then "hide" else display
  }

  /** Whether `tb_wpml_breadcrumbs` prints the breadcrumbs. */
  function ShowsBreadcrumbs(singular: bool, postMeta: string, siteSetting: string, home: bool): (show: bool)
    ensures show ==> !home
    ensures show <==> BreadcrumbsDisplay(singular, postMeta, siteSetting, home) == "show"
  {
    BreadcrumbsDisplay(singular, postMeta, siteSetting, home) == "show"
  }

  /** A page or post's own setting overrides the site-wide option in both directions. */
  lemma PostSettingOverridesSite(postMeta: string, siteSetting: string)
    requires postMeta == "show" || postMeta == "hide"
    ensures ShowsBreadcrumbs(true, postMeta, siteSetting, false) <==> postMeta == "show"
  {
  }
}
