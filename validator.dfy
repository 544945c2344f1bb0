/**
 * `tb_wpml_optionsframework_validate`: what a submitted options form is
 * turned into before the host stores it. The submit button picks the
 * mode: "match" copies the default language's option, "reset" restores
 * the framework defaults, "update" cleans the submission field by field
 * through the sanitizers registered per field type, anything else falls
 * back to the defaults.
 */
module Validator {
  import opened Values
  import opened FieldIds

  /** One entry of `themeblvd_get_formatted_options()`. */
  datatype Field = Field(
    id: Option<string>,
    kind: Option<string>,   // the entry's `type`
    choices: seq<string>)   // the keys of the entry's `options` (multicheck sub-options)

  /**
   * `apply_filters('of_sanitize_' . $type, $value, $option)`: the
   * sanitizer for a type, applied to the (possibly missing) submitted value.
   */
  type Sanitizer = (string, Option<Value>, Field) -> Value

  /** Entries the update loop looks at: those with both an id and a type. */
  predicate HasIdAndType(f: Field) {
    f.id.Some? && f.kind.Some?
  }

  function IdOf(f: Field): string
    requires HasIdAndType(f)
  {
    NormaliseId(f.id.value)
  }

  /** Entries that make it into the cleaned result: a sanitizer exists for their type. */
  predicate Kept(f: Field, sanitizers: set<string>) {
    HasIdAndType(f) && f.kind.value in sanitizers
  }

  /** The value every multicheck sub-option gets when the field was not submitted. */
  function Unchecked(choices: seq<string>): (m: map<string, Value>)
    ensures m.Keys == set k | k in choices
    ensures forall k :: k in m ==> m[k] == Str("0")
  {
    map k | k in choices :: Str("0")
  }

  /** The submission and the cleaned result, as the update loop carries them. */
  datatype Pass = Pass(input: Record, clean: Record)

  /** One iteration of the update loop. */
  function Step(p: Pass, f: Field, sanitizers: set<string>, sanitize: Sanitizer): Pass {
    if !HasIdAndType(f) then p
    else
      var id := IdOf(f);
      var kind := f.kind.value;
      var input := if kind == "checkbox" && id !in p.input then p.input[id := Str("0")] else p.input;
      var input := if kind == "multicheck" && id !in input && |f.choices| > 0
        then input[id := Arr(Unchecked(f.choices))] else input;
      var clean := if kind in sanitizers
        then p.clean[id := sanitize(kind, if id in input then Some(input[id]) else None, f)] else p.clean;
      Pass(input, clean)
  }

  /** The update loop run over a prefix of the schema. */
  function Walk(schema: seq<Field>, input: Record, sanitizers: set<string>, sanitize: Sanitizer): Pass
    decreases |schema|
  {
    if |schema| == 0 then Pass(input, map[])
    else Step(Walk(schema[..|schema| - 1], input, sanitizers, sanitize), schema[|schema| - 1], sanitizers, sanitize)
  }

  /** What the update branch returns. */
  function Cleaned(schema: seq<Field>, input: Record, sanitizers: set<string>, sanitize: Sanitizer): Record {
    Walk(schema, input, sanitizers, sanitize).clean
  }

  /**
   * The value a field is sanitized from, stated without the loop: what
   * was submitted; `'0'` for a missing checkbox; every sub-option `'0'`
   * for a missing multicheck with sub-options; nothing otherwise.
   */
  function Submitted(f: Field, input: Record): Option<Value>
    requires HasIdAndType(f)
  {
    var id := IdOf(f);
    if id in input then Some(input[id])
    else if f.kind.value == "checkbox" then Some(Str("0"))
    else if f.kind.value == "multicheck" && |f.choices| > 0 then Some(Arr(Unchecked(f.choices)))
    else None
  }

  /** No two entries with an id and a type normalise to the same id. */
  predicate DistinctIds(schema: seq<Field>) {
    forall i, j :: 0 <= i < j < |schema| && HasIdAndType(schema[i]) && HasIdAndType(schema[j]) ==>
      IdOf(schema[i]) != IdOf(schema[j])
  }

  /** The form-submission flags and fields the validator reads from `$_POST`. */
  datatype Submission = Submission(
    matchDefault: bool,             // `isset($_POST['match'])`
    reset: bool,                    // `isset($_POST['reset'])`
    update: bool,                   // `isset($_POST['update'])`
    optionPageBase: Option<string>) // `$_POST['option_page_base']`

  /** The notice `add_settings_error` shows. */
  datatype Notice = NoNotice | DefaultsRestored | OptionsSaved

  /** The value handed back to the host for storage (`None` for PHP's `false`), and the notice. */
  datatype Outcome = Outcome(stored: Option<Record>, notice: Notice)

  // ---------------------------------------------------------------------
  // The update loop

  /** The values every sub-option of a missing multicheck gets, built key by key. */
  method UncheckAll(choices: seq<string>) returns (m: map<string, Value>)
    ensures m.Keys == set k | k in choices
    ensures forall k :: k in m ==> m[k] == Str("0")
  {
    m := map[];
    for j := 0 to |choices|
      invariant m.Keys == set k | k in choices[..j]
      invariant forall k :: k in m ==> m[k] == Str("0")
    {
      assert choices[..j + 1] == choices[..j] + [choices[j]];
      m := m[choices[j] := Str("0")];
    }
    assert choices[..|choices|] == choices;
  }

  /** The update branch: walk the schema, default missing checkboxes, sanitize what has a sanitizer. */
  method CleanSubmission(schema: seq<Field>, input: Record, sanitizers: set<string>, sanitize: Sanitizer)
    returns (clean: Record)
    ensures clean == Cleaned(schema, input, sanitizers, sanitize)
  {
    var submitted := input;
    clean := map[];
    for i := 0 to |schema|
      invariant Pass(submitted, clean) == Walk(schema[..i], input, sanitizers, sanitize)
    {
      assert schema[..i + 1][..i] == schema[..i];
      var option := schema[i];
      ghost var next := Step(Pass(submitted, clean), option, sanitizers, sanitize);
      assert Walk(schema[..i + 1], input, sanitizers, sanitize) == next;
      if option.id.None? {
        continue;
      }
      if option.kind.None? {
        continue;
      }
      var id := NormaliseId(option.id.value);
      var kind := option.kind.value;
      if kind == "checkbox" && id !in submitted {
        submitted := submitted[id := Str("0")];
      }
      if kind == "multicheck" && id !in submitted {
        var unchecked := UncheckAll(option.choices);
        assert unchecked == Unchecked(option.choices);
        if unchecked != map[] {
          submitted := submitted[id := Arr(unchecked)];
        }
        assert unchecked == map[] <==> |option.choices| == 0 by {
          if |option.choices| > 0 { assert option.choices[0] in unchecked; }
        }
      }
      if kind in sanitizers {
        clean := clean[id := sanitize(kind, if id in submitted then Some(submitted[id]) else None, option)];
      }
      assert Pass(submitted, clean) == next;
    }
    assert schema[..|schema|] == schema;
  }

  /**
   * The validator: the "match" flag wins over "reset", which wins over
   * "update"; with none of them the framework defaults are returned.
   */
  method Validate(
    post: Submission, store: Store, defaults: Record,
    schema: seq<Field>, sanitizers: set<string>, sanitize: Sanitizer, input: Record)
    returns (out: Outcome)
    ensures post.matchDefault ==>
      out.notice == NoNotice &&
      out.stored == (if post.optionPageBase.Some? then GetOption(store, post.optionPageBase.value) else None)
    ensures !post.matchDefault && post.reset ==> out == Outcome(Some(defaults), DefaultsRestored)
    ensures !post.matchDefault && !post.reset && post.update ==>
      out == Outcome(Some(Cleaned(schema, input, sanitizers, sanitize)), OptionsSaved)
    ensures !post.matchDefault && !post.reset && !post.update ==> out == Outcome(Some(defaults), NoNotice)
  {
    if post.matchDefault {
      var stored := if post.optionPageBase.Some? then GetOption(store, post.optionPageBase.value) else None;
      return Outcome(stored, NoNotice);
    }
    if post.reset {
      return Outcome(Some(defaults), DefaultsRestored);
    }
    if post.update {
      var clean := CleanSubmission(schema, input, sanitizers, sanitize);
      return Outcome(Some(clean), OptionsSaved);
    }
    return Outcome(Some(defaults), NoNotice);
  }

  // ---------------------------------------------------------------------
  // What the update branch returns

  /**
   * The keys of the cleaned result are exactly the normalised ids of the
   * entries that have an id, a type and a sanitizer for that type.
   */
  lemma {:induction false} CleanedKeys(schema: seq<Field>, input: Record, sanitizers: set<string>, sanitize: Sanitizer, k: string)
    ensures k in Cleaned(schema, input, sanitizers, sanitize) <==>
      exists j :: 0 <= j < |schema| && Kept(schema[j], sanitizers) && IdOf(schema[j]) == k
    decreases |schema|
  {
    if |schema| > 0 {
      var prefix := schema[..|schema| - 1];
      var last := schema[|schema| - 1];
      CleanedKeys(prefix, input, sanitizers, sanitize, k);
      if k in Cleaned(schema, input, sanitizers, sanitize) {
        if k in Cleaned(prefix, input, sanitizers, sanitize) {
          var j :| 0 <= j < |prefix| && Kept(prefix[j], sanitizers) && IdOf(prefix[j]) == k;
          assert schema[j] == prefix[j];
        } else {
          assert Kept(last, sanitizers) && IdOf(last) == k;
        }
      } else {
        forall j | 0 <= j < |schema| && Kept(schema[j], sanitizers) ensures IdOf(schema[j]) != k {
          if j < |schema| - 1 { assert schema[j] == prefix[j]; }
        }
      }
    }
  }

  /** Every key of the cleaned result is made of `a`-`z`, `0`-`9` and `_`. */
  lemma CleanedKeysNormalised(schema: seq<Field>, input: Record, sanitizers: set<string>, sanitize: Sanitizer)
    ensures forall k :: k in Cleaned(schema, input, sanitizers, sanitize) ==> IsNormalised(k)
  {
    forall k | k in Cleaned(schema, input, sanitizers, sanitize) ensures IsNormalised(k) {
      CleanedKeys(schema, input, sanitizers, sanitize, k);
      var j :| 0 <= j < |schema| && Kept(schema[j], sanitizers) && IdOf(schema[j]) == k;
    }
  }

  /**
   * The loop never changes a submitted value, and leaves ids no entry
   * normalises to exactly as submitted.
   */
  lemma {:induction false} WalkKeepsSubmission(schema: seq<Field>, input: Record, sanitizers: set<string>, sanitize: Sanitizer, k: string)
    ensures var w := Walk(schema, input, sanitizers, sanitize).input;
      (k in input ==> k in w && w[k] == input[k])
      && ((forall j :: 0 <= j < |schema| && HasIdAndType(schema[j]) ==> IdOf(schema[j]) != k) ==>
            (k in w <==> k in input))
    decreases |schema|
  {
    if |schema| > 0 {
      var prefix := schema[..|schema| - 1];
      WalkKeepsSubmission(prefix, input, sanitizers, sanitize, k);
      if forall j :: 0 <= j < |schema| && HasIdAndType(schema[j]) ==> IdOf(schema[j]) != k {
        forall j | 0 <= j < |prefix| && HasIdAndType(prefix[j]) ensures IdOf(prefix[j]) != k {
          assert prefix[j] == schema[j];
        }
      }
    }
  }

  /**
   * With distinct ids, each kept entry is cleaned by its type's sanitizer
   * from the value it was submitted with, or from `'0'` for a missing
   * checkbox and all-`'0'` sub-options for a missing multicheck.
   */
  lemma {:induction false} CleanedField(schema: seq<Field>, input: Record, sanitizers: set<string>, sanitize: Sanitizer, j: nat)
    requires DistinctIds(schema)
    requires j < |schema| && Kept(schema[j], sanitizers)
    ensures var f := schema[j];
      var clean := Cleaned(schema, input, sanitizers, sanitize);
      IdOf(f) in clean && clean[IdOf(f)] == sanitize(f.kind.value, Submitted(f, input), f)
    decreases |schema|
  {
    var prefix := schema[..|schema| - 1];
    var last := schema[|schema| - 1];
    var f := schema[j];
    var id := IdOf(f);
    assert DistinctIds(prefix) by {
      forall a, b | 0 <= a < b < |prefix| && HasIdAndType(prefix[a]) && HasIdAndType(prefix[b])
        ensures IdOf(prefix[a]) != IdOf(prefix[b])
      {
        assert prefix[a] == schema[a] && prefix[b] == schema[b];
      }
    }
    if j < |schema| - 1 {
      assert prefix[j] == f;
      CleanedField(prefix, input, sanitizers, sanitize, j);
      assert !HasIdAndType(last) || IdOf(last) != id;
    } else {
      WalkKeepsSubmission(prefix, input, sanitizers, sanitize, id);
      forall i | 0 <= i < |prefix| && HasIdAndType(prefix[i]) ensures IdOf(prefix[i]) != id {
        assert prefix[i] == schema[i];
      }
      var before := Walk(prefix, input, sanitizers, sanitize).input;
      assert (id in before <==> id in input) && (id in input ==> before[id] == input[id]);
    }
  }

  /** A checkbox left out of the submission is cleaned from `'0'`. */
  lemma MissingCheckboxIsUnchecked(schema: seq<Field>, input: Record, sanitizers: set<string>, sanitize: Sanitizer, j: nat)
    requires DistinctIds(schema)
    requires j < |schema| && Kept(schema[j], sanitizers)
    requires schema[j].kind.value == "checkbox" && IdOf(schema[j]) !in input
    ensures IdOf(schema[j]) in Cleaned(schema, input, sanitizers, sanitize)
    ensures Cleaned(schema, input, sanitizers, sanitize)[IdOf(schema[j])] == sanitize("checkbox", Some(Str("0")), schema[j])
  {
    CleanedField(schema, input, sanitizers, sanitize, j);
  }

  /** A multicheck left out of the submission is cleaned from all its sub-options set to `'0'`. */
  lemma MissingMulticheckIsUnchecked(schema: seq<Field>, input: Record, sanitizers: set<string>, sanitize: Sanitizer, j: nat)
    requires DistinctIds(schema)
    requires j < |schema| && Kept(schema[j], sanitizers)
    requires schema[j].kind.value == "multicheck" && IdOf(schema[j]) !in input && |schema[j].choices| > 0
    ensures IdOf(schema[j]) in Cleaned(schema, input, sanitizers, sanitize)
    ensures Cleaned(schema, input, sanitizers, sanitize)[IdOf(schema[j])] ==
      sanitize("multicheck", Some(Arr(Unchecked(schema[j].choices))), schema[j])
  {
    CleanedField(schema, input, sanitizers, sanitize, j);
  }

  /** A submitted field reaches its sanitizer exactly as submitted. */
  lemma SubmittedFieldPassesThrough(schema: seq<Field>, input: Record, sanitizers: set<string>, sanitize: Sanitizer, j: nat)
    requires DistinctIds(schema)
    requires j < |schema| && Kept(schema[j], sanitizers)
    requires IdOf(schema[j]) in input
    ensures IdOf(schema[j]) in Cleaned(schema, input, sanitizers, sanitize)
    ensures Cleaned(schema, input, sanitizers, sanitize)[IdOf(schema[j])] ==
      sanitize(schema[j].kind.value, Some(input[IdOf(schema[j])]), schema[j])
  {
    CleanedField(schema, input, sanitizers, sanitize, j);
  }

  /**
   * An entry whose type has no sanitizer is dropped: no other entry
   * with a sanitizer shares its id, so its id is not in the result.
   */
  lemma UnsanitizedFieldDropped(schema: seq<Field>, input: Record, sanitizers: set<string>, sanitize: Sanitizer, j: nat)
    requires DistinctIds(schema)
    requires j < |schema| && HasIdAndType(schema[j]) && schema[j].kind.value !in sanitizers
    ensures IdOf(schema[j]) !in Cleaned(schema, input, sanitizers, sanitize)
  {
    CleanedKeys(schema, input, sanitizers, sanitize, IdOf(schema[j]));
  }

  /**
   * Which fields an update stores depends only on the schema and the
   * registered sanitizers, never on which fields were submitted.
   */
  lemma {:induction false} CleanedKeysIgnoreInput(schema: seq<Field>, a: Record, b: Record, sanitizers: set<string>, sanitize: Sanitizer)
    ensures Cleaned(schema, a, sanitizers, sanitize).Keys == Cleaned(schema, b, sanitizers, sanitize).Keys
  {
    forall k ensures k in Cleaned(schema, a, sanitizers, sanitize) <==> k in Cleaned(schema, b, sanitizers, sanitize) {
      CleanedKeys(schema, a, sanitizers, sanitize, k);
      CleanedKeys(schema, b, sanitizers, sanitize, k);
    }
  }
}
