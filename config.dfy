/**
 * `Config` (configenerator.py:95-127): a list of templates, a writer, and
 * the modifiers and validators of one configuration file. The user
 * callables are given a meaning by `Hooks`; the writer is only named.
 */
module Configs {
  import opened Wrappers
  import opened Values
  import opened Equality
  import opened Merging

  /**
   * The meaning of every user callable, by identifier:
   * `apply` the callables stored in templates, `modifyConfig` the config
   * modifiers (their in-place change given as the new template), `checkConfig`
   * the config validators, `modifySet` the configset modifiers (the new value of record
   * `i` of the shared list) and `checkSet` the configset validators.
   */
  datatype Hooks = Hooks(
    apply: Interp,
    modifyConfig: (nat, Template) -> Template,
    checkConfig: (nat, Template, seq<Template>) -> Value,
    modifySet: (nat, nat, seq<Template>) -> Template,
    checkSet: (nat, seq<Template>) -> Value)

  /** Why a materialisation stops. */
  datatype Failure =
    | NotResolved                                                            // `output` read before `resolve` (AttributeError)
    | ConfigCheckFailed(validator: nat, output: Template, configset: seq<Template>)  // configenerator.py:121-124
    | SetCheckFailed(validator: nat, outputs: seq<Template>)                  // configenerator.py:166-169

  /** A call the materialisation makes, in the order it makes them. */
  datatype Event =
    | Resolved(config: nat)
    | SetModified(modifier: nat, outputs: seq<Template>)
    | Validated(config: nat, outputs: seq<Template>)
    | SetValidated(validator: nat, outputs: seq<Template>)
    | Written(config: nat, writer: nat, data: Template)

  /** What a configuration is made of (the constructor's arguments; `None` lists are empty). */
  datatype Setup = Setup(templates: seq<Template>, writer: nat, modifiers: seq<nat>, validators: seq<nat>)

  ghost predicate ValidSetup(s: Setup) {
    forall i | 0 <= i < |s.templates| :: Valid(s.templates[i])
  }

  /** The templates folded left to right into a fresh empty template. */
  function MergeAll(templates: seq<Template>, apply: Interp): Template
    requires forall i | 0 <= i < |templates| :: Valid(templates[i])
  {
    if templates == [] then Empty
    else Merge(MergeAll(templates[..|templates| - 1], apply), templates[|templates| - 1], apply)
  }

  /** The modifiers run in list order, each changing the output in place. */
  function ApplyModifiers(t: Template, modifiers: seq<nat>, h: Hooks): Template {
    if modifiers == [] then t
    else h.modifyConfig(modifiers[|modifiers| - 1], ApplyModifiers(t, modifiers[..|modifiers| - 1], h))
  }

  /** The output `resolve` leaves behind. */
  function Resolution(s: Setup, h: Hooks): Template
    requires ValidSetup(s)
  {
    ApplyModifiers(MergeAll(s.templates, h.apply), s.modifiers, h)
  }

  /**
   * The outcome of `validate(configset)`: every validator is called on the
   * output and the configset in turn; the first result other than `True` or
   * `None` fails. Without validators the output is never read.
   */
  function Validation(output: Option<Template>, configset: seq<Template>, validators: seq<nat>, h: Hooks): Outcome<Failure> {
    if validators == [] then Pass
    else if output.None? then Fail(NotResolved)
    else if !Accepted(h.checkConfig(validators[0], output.value, configset)) then
      Fail(ConfigCheckFailed(validators[0], output.value, configset))
    else Validation(output, configset, validators[1..], h)
  }

  class Config {
    const templates: seq<Template>
    const writer: nat
    const modifiers: seq<nat>
    const validators: seq<nat>
    /** `None` until `resolve` has run. */
    var output: Option<Template>

    constructor(templates: seq<Template>, writer: nat, modifiers: seq<nat>, validators: seq<nat>)
      ensures this.templates == templates && this.writer == writer
      ensures this.modifiers == modifiers && this.validators == validators
      ensures output == None
    {
      this.templates := templates;
      this.writer := writer;
      this.modifiers := modifiers;
      this.validators := validators;
      output := None;
    }

    /** The constructor's arguments. */
    function Spec(): Setup {
      Setup(templates, writer, modifiers, validators)
    }

    /** `resolve()`: merge every template into a fresh one, then run the modifiers. */
    method Resolve(h: Hooks)
      requires ValidSetup(Spec())
      modifies this
      ensures output == Some(Resolution(Spec(), h))
    {
      var out := Empty;
      for i := 0 to |templates|
        invariant out == MergeAll(templates[..i], h.apply)
      {
        assert templates[..i + 1][..i] == templates[..i];
        out := MergeFrom(out, templates[i], h.apply);
      }
      assert templates[..|templates|] == templates;
      var merged := out;
      for i := 0 to |modifiers|
        invariant out == ApplyModifiers(merged, modifiers[..i], h)
      {
        assert modifiers[..i + 1][..i] == modifiers[..i];
        out := h.modifyConfig(modifiers[i], out);
      }
      assert modifiers[..|modifiers|] == modifiers;
      output := Some(out);
    }

    /** `validate(configset)`; the failure is the `AssertionError` of the first rejecting validator. */
    method Validate(configset: seq<Template>, h: Hooks) returns (r: Outcome<Failure>)
      ensures r == Validation(output, configset, validators, h)
    {
      for i := 0 to |validators|
        invariant Validation(output, configset, validators, h) == Validation(output, configset, validators[i..], h)
      {
        assert validators[i..][1..] == validators[i + 1..];
        if output.None? {
          return Fail(NotResolved);
        }
        var validator := validators[i];
        var result := h.checkConfig(validator, output.value, configset);
        if !Accepted(result) {
          return Fail(ConfigCheckFailed(validator, output.value, configset));
        }
      }
      return Pass;
    }

    /** `materialize()`: hand the output to the writer. */
    method Materialize(index: nat) returns (r: Result<Event, Failure>)
      ensures output.None? ==> r == Err(NotResolved)
      ensures output.Some? ==> r == Ok(Written(index, writer, output.value))
    {
      if output.None? {
        return Err(NotResolved);
      }
      return Ok(Written(index, writer, output.value));
    }
  }

  /** Validation passes exactly when every validator accepts the output. */
  lemma {:induction false} ValidationPassesIff(output: Template, configset: seq<Template>, validators: seq<nat>, h: Hooks)
    ensures Validation(Some(output), configset, validators, h) == Pass
            <==> forall i | 0 <= i < |validators| :: Accepted(h.checkConfig(validators[i], output, configset))
  {
    if validators != [] {
      ValidationPassesIff(output, configset, validators[1..], h);
      assert forall i | 1 <= i < |validators| :: validators[i] == validators[1..][i - 1];
    }
  }

  /** A failure names the first validator that rejected the output; none after it ran. */
  lemma {:induction false} ValidationReportsFirstFailure(output: Template, configset: seq<Template>, validators: seq<nat>, h: Hooks)
    requires Validation(Some(output), configset, validators, h).Fail?
    ensures var e := Validation(Some(output), configset, validators, h).error;
            && e.ConfigCheckFailed? && e.output == output && e.configset == configset
            && exists k | 0 <= k < |validators| ::
                 && validators[k] == e.validator
                 && !Accepted(h.checkConfig(validators[k], output, configset))
                 && forall j | 0 <= j < k :: Accepted(h.checkConfig(validators[j], output, configset))
  {
    if Accepted(h.checkConfig(validators[0], output, configset)) {
      ValidationReportsFirstFailure(output, configset, validators[1..], h);
      var e := Validation(Some(output), configset, validators, h).error;
      var k :| 0 <= k < |validators[1..]| && validators[1..][k] == e.validator
               && !Accepted(h.checkConfig(validators[1..][k], output, configset))
               && forall j | 0 <= j < k :: Accepted(h.checkConfig(validators[1..][j], output, configset));
      assert forall j | 1 <= j < k + 1 :: validators[j] == validators[1..][j - 1];
      assert validators[k + 1] == e.validator;
    } else {
      assert validators[0] == validators[0];
    }
  }

  /** An unresolved configuration fails validation exactly when it has validators. */
  lemma UnresolvedValidation(configset: seq<Template>, validators: seq<nat>, h: Hooks)
    ensures Validation(None, configset, validators, h) == (if validators == [] then Pass else Fail(NotResolved))
  {
  }

  /**
   * Precedence: when the last template naming a field gives it a plain value
   * (neither a callable nor a template), the merged output holds that value.
   */
  lemma {:induction false} LastPlainWins(templates: seq<Template>, apply: Interp, k: nat, f: string)
    requires forall i | 0 <= i < |templates| :: Valid(templates[i])
    requires k < |templates| && f in templates[k].fields
    requires !Attr(templates[k], f).Func? && !Attr(templates[k], f).Tmpl?
    requires forall j | k < j < |templates| :: f !in templates[j].fields
    ensures Attr(MergeAll(templates, apply), f) == Attr(templates[k], f)
  {
    var n := |templates|;
    var init := templates[..n - 1];
    if k == n - 1 {
      MergeOverrides(MergeAll(init, apply), templates[n - 1], apply, f);
    } else {
      LastPlainWins(init, apply, k, f);
      MergeUntouched(MergeAll(init, apply), templates[n - 1], apply, f);
    }
  }

  /** test_config.py:45-56: `[T(a=1, b=2), T(b=3, c=4)]` resolves to `T(a=1, b=3, c=4)`; the modifier changes nothing. */
  lemma ResolveExample(h: Hooks, t1: Template, t2: Template, expected: Template)
    requires t1 == Template(["a", "b"], map["a" := Int(1), "b" := Int(2)])
    requires t2 == Template(["b", "c"], map["b" := Int(3), "c" := Int(4)])
    requires expected == Template(["a", "b", "c"], map["a" := Int(1), "b" := Int(3), "c" := Int(4)])
    requires h.modifyConfig(0, expected) == expected
    ensures ValidSetup(Setup([t1, t2], 0, [0], []))
    ensures Resolution(Setup([t1, t2], 0, [0], []), h) == expected
  {
    ResolveExampleMerge(h.apply, t1, t2, expected);
    OneModifier(expected, 0, h);
  }

  lemma ResolveExampleMerge(apply: Interp, t1: Template, t2: Template, expected: Template)
    requires t1 == Template(["a", "b"], map["a" := Int(1), "b" := Int(2)])
    requires t2 == Template(["b", "c"], map["b" := Int(3), "c" := Int(4)])
    requires expected == Template(["a", "b", "c"], map["a" := Int(1), "b" := Int(3), "c" := Int(4)])
    ensures Valid(t1) && Valid(t2)
    ensures MergeAll([t1, t2], apply) == expected
  {
    ValidPair("a", "b", Int(1), Int(2));
    NoTransformsPair("a", "b", Int(1), Int(2));
    OverlayExample(apply);
    MergeAllPair(t1, t2, apply);
  }

  /** A single modifier is one call of it. */
  lemma OneModifier(t: Template, m: nat, h: Hooks)
    ensures ApplyModifiers(t, [m], h) == h.modifyConfig(m, t)
  {
    var mods := [m];
    assert mods[..0] == [];
  }

  /** Resolving two templates, the first without callables, is merging the second into the first. */
  lemma MergeAllPair(t1: Template, t2: Template, apply: Interp)
    requires Valid(t1) && NoTransforms(t1) && Valid(t2)
    ensures MergeAll([t1, t2], apply) == Merge(t1, t2, apply)
  {
    var ts := [t1, t2];
    assert ts[..1] == [t1] && [t1][..0] == [];
    MergeIntoEmpty(t1, apply);
    assert MergeAll([t1], apply) == Merge(MergeAll([], apply), t1, apply);
    assert MergeAll(ts, apply) == Merge(MergeAll([t1], apply), t2, apply);
  }

  /** The merge inside test_config.py:45-56. */
  lemma OverlayExample(apply: Interp)
    ensures Valid(Template(["b", "c"], map["b" := Int(3), "c" := Int(4)]))
    ensures Merge(Template(["a", "b"], map["a" := Int(1), "b" := Int(2)]),
                  Template(["b", "c"], map["b" := Int(3), "c" := Int(4)]), apply)
            == Template(["a", "b", "c"], map["a" := Int(1), "b" := Int(3), "c" := Int(4)])
  {
    var t1 := Template(["a", "b"], map["a" := Int(1), "b" := Int(2)]);
    var t2 := Template(["b", "c"], map["b" := Int(3), "c" := Int(4)]);
    ValidPair("b", "c", Int(3), Int(4));
    var r := Merge(t1, t2, apply);
    var u := Unseen(t2.fields, t1.fields);
    assert u == ["c"] by {
      assert t2.fields[..1] == ["b"] && t2.fields[..1][..0] == [];
      assert Unseen(t2.fields[..1], t1.fields) == [];
    }
    assert r.fields == ["a", "b", "c"] by {
      MergedFields(t1, t2, apply);
      assert t1.fields + ["c"] == ["a", "b", "c"];
    }
    assert forall f :: f in r.attrs <==> f == "a" || f == "b" || f == "c" by {
      MergedFields(t1, t2, apply);
    }
    assert r.attrs["a"] == Int(1) by { MergeUntouched(t1, t2, apply, "a"); }
    assert r.attrs["b"] == Int(3) by { MergeOverrides(t1, t2, apply, "b"); }
    assert r.attrs["c"] == Int(4) by { MergeOverrides(t1, t2, apply, "c"); }
    MapOfThree(r.attrs, "a", "b", "c", Int(1), Int(3), Int(4));
  }

  /** A map with exactly three keys is the display of its three entries. */
  lemma MapOfThree(m: map<string, Value>, a: string, b: string, c: string, va: Value, vb: Value, vc: Value)
    requires forall f :: f in m <==> f == a || f == b || f == c
    requires m[a] == va && m[b] == vb && m[c] == vc
    ensures m == map[a := va, b := vb, c := vc]
  {
  }

  /**
   * The first configuration of the example scripts (cfgntr_validators.py:24-33):
   * `version` is overridden by the last template, `will_be_modified=1` is
   * multiplied by 100 by the callable arriving over it, and the fields keep
   * the order in which they first appeared.
   */
  lemma ExampleScriptResolves(apply: Interp, times100: nat, section: Template,
                              t1: Template, t2: Template, t3: Template, expected: Template)
    requires section == Template(["field", "other_field"], map["field" := Str("correct"), "other_field" := Bool(true)])
    requires t1 == Template(["version", "section", "will_be_modified"],
                            map["version" := Int(42), "section" := Tmpl(section), "will_be_modified" := Int(1)])
    requires t2 == Template(["will_be_modified"], map["will_be_modified" := Func(times100)])
    requires t3 == Template(["version", "some_other_item"], map["version" := Int(43), "some_other_item" := Str("hello")])
    requires expected == Template(["version", "section", "will_be_modified", "some_other_item"],
                                  map["version" := Int(43), "section" := Tmpl(section),
                                      "will_be_modified" := Int(100), "some_other_item" := Str("hello")])
    requires apply(times100, Int(1)) == Int(100)
    ensures Valid(t1) && Valid(t2) && Valid(t3)
    ensures MergeAll([t1, t2, t3], apply) == expected
  {
    var m12 := Template(["version", "section", "will_be_modified"],
                        map["version" := Int(42), "section" := Tmpl(section), "will_be_modified" := Int(100)]);
    ScriptFirstTemplate(section, t1);
    ScriptTransform(apply, times100, Tmpl(section), t1, t2, m12);
    ScriptOverrideStep(apply, Tmpl(section), m12, t3, expected);
    MergeAllThree(t1, t2, t3, m12, expected, apply);
  }

  /** Resolving three templates, the first without callables, through the merge of the first two. */
  lemma MergeAllThree(t1: Template, t2: Template, t3: Template, m12: Template, r: Template, apply: Interp)
    requires Valid(t1) && NoTransforms(t1) && Valid(t2) && Valid(t3)
    requires Merge(t1, t2, apply) == m12 && Merge(m12, t3, apply) == r
    ensures MergeAll([t1, t2, t3], apply) == r
  {
    MergeAllPair(t1, t2, apply);
    var ts := [t1, t2, t3];
    assert ts[..2] == [t1, t2];
  }

  /** The first template of the example script is well formed and holds no callable. */
  lemma ScriptFirstTemplate(section: Template, t1: Template)
    requires section == Template(["field", "other_field"], map["field" := Str("correct"), "other_field" := Bool(true)])
    requires t1 == Template(["version", "section", "will_be_modified"],
                            map["version" := Int(42), "section" := Tmpl(section), "will_be_modified" := Int(1)])
    ensures Valid(t1) && NoTransforms(t1)
  {
    ValidPair("field", "other_field", Str("correct"), Bool(true));
    NoTransformsPair("field", "other_field", Str("correct"), Bool(true));
    ValidTriple("version", "section", "will_be_modified", Int(42), Tmpl(section), Int(1));
    NoTransformsTriple("version", "section", "will_be_modified", Int(42), Tmpl(section), Int(1));
  }

  /** A callable arriving over `will_be_modified=1`. */
  lemma ScriptTransform(apply: Interp, times100: nat, section: Value, t1: Template, t2: Template, m12: Template)
    requires t1 == Template(["version", "section", "will_be_modified"],
                            map["version" := Int(42), "section" := section, "will_be_modified" := Int(1)])
    requires t2 == Template(["will_be_modified"], map["will_be_modified" := Func(times100)])
    requires m12 == Template(["version", "section", "will_be_modified"],
                             map["version" := Int(42), "section" := section, "will_be_modified" := Int(100)])
    requires apply(times100, Int(1)) == Int(100)
    ensures Valid(t2)
    ensures Merge(t1, t2, apply) == m12
  {
    assert Valid(t2);
    var merged := MergeField(t1, "will_be_modified", Func(times100), apply);
    assert merged == m12 by {
      assert Attr(t1, "will_be_modified") == Int(1);
      assert Combine(Int(1), Func(times100), apply) == Int(100);
      assert merged.attrs == t1.attrs["will_be_modified" := Int(100)];
      assert t1.attrs["will_be_modified" := Int(100)] == m12.attrs;
    }
    assert MergePrefix(t1, t2, 1, apply) == merged;
  }

  /** The last template of the example script: `version` overridden, `some_other_item` added. */
  lemma ScriptOverrideStep(apply: Interp, section: Value, m12: Template, t3: Template, expected: Template)
    requires m12 == Template(["version", "section", "will_be_modified"],
                             map["version" := Int(42), "section" := section, "will_be_modified" := Int(100)])
    requires t3 == Template(["version", "some_other_item"], map["version" := Int(43), "some_other_item" := Str("hello")])
    requires expected == Template(["version", "section", "will_be_modified", "some_other_item"],
                                  map["version" := Int(43), "section" := section,
                                      "will_be_modified" := Int(100), "some_other_item" := Str("hello")])
    ensures Valid(t3)
    ensures Merge(m12, t3, apply) == expected
  {
    ValidPair("version", "some_other_item", Int(43), Str("hello"));
    ScriptOverrideFields(apply, section, m12, t3, expected.fields);
    ScriptOverrideValues(apply, section, m12, t3, expected.attrs);
  }

  lemma ScriptOverrideFields(apply: Interp, section: Value, m12: Template, t3: Template, fields: seq<string>)
    requires m12 == Template(["version", "section", "will_be_modified"],
                             map["version" := Int(42), "section" := section, "will_be_modified" := Int(100)])
    requires t3 == Template(["version", "some_other_item"], map["version" := Int(43), "some_other_item" := Str("hello")])
    requires fields == ["version", "section", "will_be_modified", "some_other_item"]
    ensures Valid(t3)
    ensures Merge(m12, t3, apply).fields == fields
  {
    ValidPair("version", "some_other_item", Int(43), Str("hello"));
    var u := Unseen(t3.fields, m12.fields);
    assert u == ["some_other_item"] by {
      assert t3.fields[..1] == ["version"] && t3.fields[..1][..0] == [];
      assert Unseen(t3.fields[..1], m12.fields) == [];
    }
    assert Merge(m12, t3, apply).fields == m12.fields + u by {
      MergedFields(m12, t3, apply);
    }
    assert m12.fields + ["some_other_item"] == fields;
  }

  lemma ScriptOverrideValues(apply: Interp, section: Value, m12: Template, t3: Template, attrs: map<string, Value>)
    requires m12 == Template(["version", "section", "will_be_modified"],
                             map["version" := Int(42), "section" := section, "will_be_modified" := Int(100)])
    requires t3 == Template(["version", "some_other_item"], map["version" := Int(43), "some_other_item" := Str("hello")])
    requires attrs == map["version" := Int(43), "section" := section,
                          "will_be_modified" := Int(100), "some_other_item" := Str("hello")]
    ensures Valid(t3)
    ensures Merge(m12, t3, apply).attrs == attrs
  {
    ValidPair("version", "some_other_item", Int(43), Str("hello"));
    var r := Merge(m12, t3, apply);
    assert forall f :: f in r.attrs <==> f in attrs by { MergedFields(m12, t3, apply); }
    assert Attr(r, "version") == Int(43) by { MergeOverrides(m12, t3, apply, "version"); }
    assert Attr(r, "some_other_item") == Str("hello") by { MergeOverrides(m12, t3, apply, "some_other_item"); }
    assert Attr(r, "section") == section by { MergeUntouched(m12, t3, apply, "section"); }
    assert Attr(r, "will_be_modified") == Int(100) by { MergeUntouched(m12, t3, apply, "will_be_modified"); }
  }

  /**
   * test_config.py:18-42: a validator answering `True` (or `None`) passes and
   * sees the output and the configset; one answering `False` fails, and the
   * validators after it are not consulted.
   */
  lemma ValidationExamples(h: Hooks, output: Template, configset: seq<Template>)
    requires h.checkConfig(0, output, configset) == Bool(true)
    requires h.checkConfig(1, output, configset) == Null
    requires h.checkConfig(2, output, configset) == Bool(false)
    ensures Validation(Some(output), configset, [0, 1], h) == Pass
    ensures Validation(Some(output), configset, [2, 0], h) == Fail(ConfigCheckFailed(2, output, configset))
    ensures Validation(Some(output), configset, [0, 2, 1], h) == Fail(ConfigCheckFailed(2, output, configset))
  {
    var a, b, c := [0, 1], [2, 0], [0, 2, 1];
    assert a[1..] == [1] && a[1..][1..] == [];
    assert Accepted(Bool(true)) && Accepted(Null);
    assert Validation(Some(output), configset, [1], h) == Pass;
    assert c[1..] == [2, 1];
  }
}
