# configenerator, modelled in Dafny

configenerator builds configuration files from layers of templates:

- A `Template` is an open record: an ordered list of field names and one value per field.
- `merge_from` lays one template over another. A new name is appended. An incoming callable is applied to the current value. A template arriving over a template is merged into it. Anything else replaces the current value.
- `NestedTemplate` wraps a value under a path of field names.
- `serialize_to_dict` turns a template into plain data with sorted keys.
- A `Config` resolves its templates into one output, then runs its modifiers and validators.
- A `ConfigSet` materialises its configurations in five fixed phases:
  1. resolve every configuration;
  2. run the configset modifiers on the shared list of outputs;
  3. validate every configuration;
  4. run the configset validators;
  5. write every configuration.

The model follows `configenerator.py` file by file:

| file | module | what it holds |
|---|---|---|
| `values.dfy` | `Wrappers`, `Values` | `Option`, `Result` and `Outcome`; Python values as the engine sees them, `Template` as `fields: seq<string>` plus `attrs: map<string, Value>`, and its well-formedness invariant `Valid` |
| `equality.dfy` | `Equality` | Python `==`, including `Template.__eq__` and the reflected comparison, and the validator rule `result in (True, None)` |
| `merge.dfy` | `Merging` | `Merge`, the specification of `merge_from` as a fold over the incoming fields; `MergeFrom`, the loop of the source, proved equal to it; and the merge properties |
| `nested.dfy` | `Nesting` | `NestedTemplate` and what merging one does |
| `ordering.dfy` | `Ordering` | `sorted` on strings: the order, a sort proved sorted and a permutation, and uniqueness of the sorted arrangement |
| `serialize.dfy` | `Serialization` | `serialize_to_dict`, when it fails, its canonical output, and re-serialisation |
| `config.dfy` | `Configs` | `class Config` with `Resolve`, `Validate` and `Materialize`, each proved against a specification function |
| `configset.dfy` | `ConfigSets` | `class ConfigSet` with `Materialize`, proved equal to the pure `Materialization`, which records every call as an event trace |

Callables cannot live inside a Dafny datatype. A callable value is `Func(id)`, and the meaning of every callable is a parameter:

- an `Interp` for transforms;
- a `Hooks` record for the config modifiers, the config validators, the configset modifiers and the configset validators.

Writers are reduced to a `Written` event in the trace.

Two behaviours of the code are easy to misread; the model follows the code:

- Validators are not judged by truthiness. The code accepts only results that compare equal to `True` or `None` (configenerator.py:121, 166). So `1` and the empty template pass, while `"yes"` and `[1]` fail (`Equality.AcceptedValues`).
- `==` is not purely structural. `Template.__eq__` compares `fields` with `getattr(other, "fields", [])`, so an empty template equals `None`, `0` and every other non-template. As a result `==` is not transitive (`Equality.NonTemplateComparison`, `Equality.EqualityNotTransitive`).

## Model

| member | source | states |
|---|---|---|
| Values.Make | configenerator.py:20-24 | `Template(**kwargs)`: the fields are the keyword names in order, the bound names are exactly the fields, and each keyword's value is bound under its name |
| Equality.Equals | configenerator.py:26-32 | `Template.__eq__`: the field lists must agree in order, then every field's values must compare equal; a non-template counts as having no fields |
| Equality.PyEq | configenerator.py:26-32 | Python `==` on values: a template on either side decides with `Template.__eq__`, `True == 1`, collections compare element by element, callables and objects by identity |
| Equality.Accepted | configenerator.py:121 | `result in (True, None)`: the result compares equal to `True` or to `None` |
| Values.MakeValid | configenerator.py:20-24 | a template built from well-formed values satisfies the invariant: no field listed twice, listed fields exactly the bound ones |
| Equality.MakeIs | configenerator.py:20-24 | any template with exactly the keyword fields, in order, and their values is `Template(**kwargs)` |
| Equality.PyEqReflexive | configenerator.py:26-32 | every well-formed value compares equal to itself, templates included |
| Equality.EqualsReflexive | configenerator.py:26-32 | a well-formed template equals itself under `__eq__` |
| Equality.PyEqSymmetric | configenerator.py:26-32 | `a == b` implies `b == a` for well-formed values, the reflected `Template.__eq__` included |
| Equality.EqualsSameFieldOrder | configenerator.py:27-28 | equal templates list the same fields in the same order |
| Equality.SingleFieldEquals | configenerator.py:29-32 | two one-field templates on the same name are equal exactly when their values compare equal |
| Equality.FieldListsDiffer | configenerator.py:27-28 | templates with field lists of different lengths are unequal, whatever their values |
| Equality.FieldOrderMatters | configenerator.py:27-28 | `T(a=1, b=2)` and the same attributes listed as `b, a` are unequal |
| Equality.NonTemplateComparison | configenerator.py:27-28 | a template equals a non-template, from either side, exactly when it has no fields |
| Equality.EqualityNotTransitive | configenerator.py:27-28 | the empty template equals `1` and equals `None`, yet `1 != None` |
| Equality.AcceptedValues | configenerator.py:121 | a validator result passes exactly when it is `True`, `1`, `None` or a template without fields |
| Equality.ComparisonExamples | tests/unit/test_template.py:9-15 | the flat comparison cases hold or fail as the test expects |
| Equality.NestedComparisonExamples | tests/unit/test_template.py:12-13 | the nested comparison cases hold or fail as the test expects |
| Merging.Combine | configenerator.py:43-50 | the value a field holds after an incoming value arrives: a callable applied to the current value, a template merged into a current template, anything else replacing it |
| Merging.MergeField | configenerator.py:38-50 | one iteration of the loop: an unseen name is appended and bound to the incoming value, then the three-way rule runs with that as the current value |
| Merging.Merge | configenerator.py:37-51 | `t.merge_from(other)`: one iteration per field of `other`, in order |
| Merging.MergeFrom | configenerator.py:37-51 | the loop over `other.fields`, including the recursive merge of nested templates, leaves the receiver equal to `Merge(t, other)` |
| Merging.UnseenIs | configenerator.py:40-41 | the appended names are exactly those of `other` the receiver lacked, without repetition, and there are none when every name is known |
| Merging.PrefixFields | configenerator.py:38-42 | after the first `n` iterations the fields are the old ones followed by the unseen names among the first `n` |
| Merging.PrefixUntouched | configenerator.py:38-50 | a field not among the first `n` names keeps its value and its presence |
| Merging.PrefixKeys | configenerator.py:38-50 | after `n` iterations a field has a value exactly when it had one or is among the first `n` names |
| Merging.PrefixTouched | configenerator.py:38-50 | a field is settled in its own iteration and later iterations do not change it |
| Merging.MergedFields | configenerator.py:38-42 | the merged fields are the old list followed by `other`'s unseen names in `other`'s order, stay distinct, and a field has a value exactly when either side had it |
| Merging.MergeUntouched | configenerator.py:38 | a field `other` does not name keeps its value |
| Merging.MergeTouched | configenerator.py:40-50 | a field `other` names ends with the three-way rule applied to its old value, or to the incoming value when the field was new |
| Merging.MergeAppliesTransform | configenerator.py:43-44 | a callable arriving over an existing field is applied to its value |
| Merging.MergeOverrides | configenerator.py:49-50 | a value that is neither callable nor template replaces the field |
| Merging.MergeNestedTemplates | configenerator.py:45-48 | a template arriving over a template is merged into it, so nested fields it does not name survive |
| Merging.MergeNewCallable | configenerator.py:40-44 | a callable arriving under a new name is stored as the callable applied to itself |
| Merging.MergeNewTemplate | configenerator.py:40-48 | a template arriving under a new name is merged into itself |
| Merging.CombineSelf | configenerator.py:43-50 | without callables, a value arriving over itself leaves it unchanged |
| Merging.SelfMerge | configenerator.py:37-51 | without callables, merging a template into itself changes nothing |
| Merging.MergeIntoEmpty | configenerator.py:37-51 | without callables a new field is plain insertion: merging into `Template()` gives the incoming template |
| Merging.UnseenDistinct | configenerator.py:40-41 | with nothing known, the unseen names of a repetition-free list are that list |
| Merging.MergeFromEmpty | configenerator.py:37-51 | merging `Template()` into a template leaves it unchanged |
| Merging.CombineValid | configenerator.py:43-50 | the three-way rule yields a well-formed value when its inputs and every callable's results are well formed |
| Merging.MergePreservesValid | configenerator.py:37-51 | merging well-formed templates gives a well-formed template |
| Merging.MergeExamples | tests/unit/test_template.py:25-28 | the merge, identity, new-field and override cases give the expected templates |
| Merging.MergeTransformExample | tests/unit/test_template.py:29-34 | `a=2` under `a=lambda x: x * 10` becomes `a=20` |
| Merging.MergeNestedExample | tests/unit/test_template.py:35-40 | `a=T(b=1)` under `a=T(c=2)` becomes `a=T(b=1, c=2)` |
| Nesting.Nest | configenerator.py:54-63 | the chain of single-field templates around a value: each level lists only the path's first name and binds only it |
| Nesting.NestedTemplate | configenerator.py:54-63 | fails with the `pop` error exactly on the empty path; otherwise following the path through the result reaches the value |
| Nesting.NestedLookup | configenerator.py:58-63 | following the path through the chain reaches the wrapped value |
| Nesting.NestValid | configenerator.py:58-63 | the chain around a well-formed value is a well-formed template |
| Nesting.NestedExamples | tests/unit/test_template.py:51-55 | `NestedTemplate(("a"), "value")` and `NestedTemplate(("a", "b", "c"), "value")` give the expected templates |
| Nesting.MergeNestedSetsPath | configenerator.py:37-63 | merging a nested template sets its value at the path, whatever was there, and leaves the other top-level fields unchanged |
| Ordering.BelowReflexive | configenerator.py:68 | the string order used by `sorted` is reflexive |
| Ordering.BelowAntisymmetric | configenerator.py:68 | the string order is antisymmetric |
| Ordering.BelowTransitive | configenerator.py:68 | the string order is transitive |
| Ordering.BelowTotal | configenerator.py:68 | any two strings are comparable |
| Ordering.Insert | configenerator.py:68 | inserting into a sorted list keeps it sorted and adds exactly the one element |
| Ordering.Sort | configenerator.py:68 | `sorted(s)` is sorted and a permutation of `s` |
| Ordering.SortedUnique | configenerator.py:68 | two sorted arrangements of the same strings are the same list |
| Ordering.SortSorted | configenerator.py:68 | sorting a sorted list leaves it unchanged |
| Ordering.SortDistinct | configenerator.py:68 | sorting distinct names gives a strictly increasing list |
| Serialization.Serialize | configenerator.py:66-82 | `serialize_to_dict`: templates and dictionaries become dictionaries in sorted key order, collections keep their kind, scalars and `None` pass through, anything else fails |
| Serialization.SerializeNamed | configenerator.py:66-76 | on success the entries carry exactly the given names, in the given order |
| Serialization.NamedEntries | configenerator.py:66-76 | on success each entry holds, under its name, the serialised value bound to that name |
| Serialization.SerializeElems | configenerator.py:69-71 | on success there is one output element per remaining input element |
| Serialization.ElemsEntries | configenerator.py:69-71 | on success each output element is the serialised input element in the same position |
| Serialization.SerializeSucceedsIff | configenerator.py:66-82 | serialisation succeeds exactly when no callable or other object is reachable and every listed field or key has a value |
| Serialization.NamedSucceedsIff | configenerator.py:66-76 | the entries of a template or dictionary serialise exactly when every named value exists and serialises |
| Serialization.ElemsSucceedIff | configenerator.py:69-71 | a list, set or tuple serialises exactly when every element does |
| Serialization.SerializedTemplate | configenerator.py:67-68 | a template becomes a dictionary whose keys are its field names in strictly increasing order, a permutation of the fields, each with its value serialised |
| Serialization.SerializeIgnoresFieldOrder | configenerator.py:68 | templates with the same values under the same names serialise alike, whatever order their fields are listed in |
| Serialization.SerializeCanonical | configenerator.py:66-82 | every dictionary in the output of a well-formed value lists its keys in strictly increasing order |
| Serialization.ReserializeIsIdentity | configenerator.py:66-82 | serialising canonical plain data read back as a value gives the same data |
| Serialization.SerializeIdempotent | configenerator.py:66-82 | serialising the output again gives the same output |
| Serialization.SerializeSingleton | configenerator.py:67-76 | a template or dictionary with one entry serialises to a one-entry dictionary |
| Serialization.SerializeTemplateExamples | tests/unit/test_template.py:66-67 | `Template()` gives `{}`; `T(a=1, b="value")` gives `{"a": 1, "b": "value"}`, and so does the same template with its fields listed as `b, a` |
| Serialization.SerializeNestedExample | tests/unit/test_template.py:68-72 | a nested template becomes a nested dictionary |
| Serialization.SerializeScalarExamples | tests/unit/test_template.py:73-78 | scalars and `None` pass through unchanged, and a plain `object()` fails |
| Serialization.SerializeCollectionExamples | tests/unit/test_template.py:79-82 | lists, sets and tuples keep their kind and dictionaries are rebuilt |
| Serialization.SerializeNestedCollectionExample | tests/unit/test_template.py:84 | a template inside a dictionary inside a list is serialised too |
| Configs.Resolution | configenerator.py:110-117 | the output of `resolve`: the templates merged left to right into `Template()`, then the modifiers in list order |
| Configs.Validation | configenerator.py:119-124 | the outcome of `validate`: the first validator whose result is not `True` or `None` fails; without validators the output is never read |
| Configs.Config.Resolve | configenerator.py:110-117 | the output becomes `Resolution`: every template merged left to right into a fresh `Template()`, then every modifier in list order |
| Configs.Config.Validate | configenerator.py:119-124 | the outcome is `Validation`: each validator is called on the output and the configset in turn, and the first result other than `True` or `None` fails |
| Configs.Config.Materialize | configenerator.py:126-127 | the output is handed to the writer; an unresolved configuration fails |
| Configs.ValidationPassesIff | configenerator.py:119-124 | validation passes exactly when every validator accepts the output |
| Configs.ValidationReportsFirstFailure | configenerator.py:119-124 | a failure names the first validator that rejected the output, with the output and configset it was given, and every earlier validator accepted |
| Configs.UnresolvedValidation | configenerator.py:119-124 | an unresolved configuration fails validation exactly when it has validators |
| Configs.LastPlainWins | configenerator.py:110-114 | when the last template naming a field gives it a plain value, the merged output holds that value |
| Configs.ResolveExample | tests/unit/test_config.py:45-56 | `[T(a=1, b=2), T(b=3, c=4)]` resolves to `T(a=1, b=3, c=4)` |
| Configs.MergeAllPair | configenerator.py:110-114 | resolving two templates, the first without callables, is merging the second into the first |
| Configs.OverlayExample | tests/unit/test_config.py:54 | `T(b=3, c=4)` merged into `T(a=1, b=2)` gives `T(a=1, b=3, c=4)` |
| Configs.ExampleScriptResolves | examples/validators/cfgntr_validators.py:25-33 | the example's three templates resolve to `version=43`, the section unchanged, `will_be_modified=100` and `some_other_item="hello"`, in first-seen field order |
| Configs.ValidationExamples | tests/unit/test_config.py:18-42 | validators answering `True` and `None` pass; one answering `False` fails, and later validators are not consulted |
| ConfigSets.Materialization | configenerator.py:147-172 | the outcome and the call trace of `ConfigSet.materialize`: resolve all, run the configset modifiers, validate each configuration, run the configset validators, write all |
| ConfigSets.ModifySet | configenerator.py:159-160 | the loop over the configset modifiers gives `ModifyAll` and records each call with the list it was given |
| ConfigSets.CheckSet | configenerator.py:164-169 | the loop over the configset validators gives `SetChecks`: the first result other than `True` or `None` stops it |
| ConfigSets.ConfigSet.ResolveConfigs | configenerator.py:156-158 | every configuration is resolved and the list of outputs is collected |
| ConfigSets.ConfigSet.StoreOutputs | configenerator.py:157-160 | after the configset modifiers, each configuration's output is its own record of the shared list |
| ConfigSets.ConfigSet.CheckConfigs | configenerator.py:162-163 | each configuration is validated against the shared list, stopping at the first failure, as `ConfigChecks` says |
| ConfigSets.ConfigSet.WriteConfigs | configenerator.py:171-172 | every configuration is written, as `Writes` says |
| ConfigSets.ConfigSet.Materialize | configenerator.py:147-172 | the outcome and the trace of calls are those of `Materialization`, and every configuration's output ends as its record of the shared list |
| ConfigSets.ModifierSeesStep | configenerator.py:159-160 | configset modifier `k` is given the list as the modifiers before it left it |
| ConfigSets.ConfigChecksShape | configenerator.py:162-163 | phase 3 validates the configurations in order against the shared list; it passes exactly when all pass, and a failure is the first failing configuration's |
| ConfigSets.SetChecksShape | configenerator.py:164-169 | phase 4 calls the validators in order; it passes exactly when all accept, and a failure names the first that did not |
| ConfigSets.PhasesOrdered | configenerator.py:147-172 | no call of a later phase comes before a call of an earlier one, and the trace opens with every configuration resolved in order |
| ConfigSets.MaterializationPassesIff | configenerator.py:147-172 | materialisation passes exactly when every configuration's validators and every configset validator accept the modified outputs |
| ConfigSets.NoWriteUnlessValid | configenerator.py:161-172 | a failure writes nothing; a configuration failure runs no configset validator; success ends the trace with every configuration written in order |
| ConfigSets.ValidatorsSeeModifiedOutputs | configenerator.py:157-172 | every validator is given the list after all configset modifiers, and each configuration is written with its own record of it |
| ConfigSets.MaterializeScenario | tests/unit/test_config.py:88-109 | with one configuration, modifier and validator, the calls are resolve, modify, validate, validate the set, write |
| ConfigSets.InvalidConfigsetScenario | tests/unit/test_config.py:67-71 | a configset validator answering `False` fails materialisation after both configurations validate, and nothing is written |

## Left out

- Aliasing: templates are values. The source stores templates by reference, so a template merged into two places and mutated later changes both. Likewise `resolve` mutates the templates it merges into the output when a nested template arrives over a new field. The model does not capture this.
- In-place update of templates: `Merging.MergeFrom` returns the new receiver instead of updating it, and the configuration's `output` and the shared list are updated by assignment.
- Integer arithmetic inside callables: a callable's result is whatever the `Interp` or `Hooks` parameter says. The callables' bodies are not modelled, and neither are exceptions they raise.
- Floats are opaque tokens. `1.0 == 1`, float ordering and NaN are not modelled. Because a NaN is not equal to itself in Python, `Template(a=float("nan"))` is unequal to itself there, while `Equality.PyEqReflexive` and `Equality.EqualsReflexive` hold for every token.
- Dictionary keys are strings. `serialize_to_dict` also serialises the keys themselves and sorts mixed key types; the model does not.
- Set element order: a set keeps the order it was built in. Python's iteration order is not modelled, and neither is the deduplication `set(...)` performs when serialised elements collide.
- Field names that clash with the template's own attributes (`fields`, `merge_from`) are not modelled.
- The string path `("a")` is split into one name per character by `list(path)`. `Nesting.NestedTemplate` takes the path as a list of names. The test at tests/unit/test_template.py:51 passes only because the string has one character.
- Configset modifiers are modelled per record: each gives a new value for record `i` of the shared list. A modifier that appends to, removes from or rebinds the list itself is not modelled.
- ConfigSets.ConfigSet.Materialize requires the configurations to be distinct objects. The source also runs with the same `Config` listed twice; there a later `resolve` overwrites the first one's output.
- ConfigSets.ConfigSet.ResolveConfigs requires distinct configurations, for the same reason as `Materialize`, whose first phase it is.
- ConfigSets.ConfigSet.StoreOutputs requires distinct configurations, for the same reason as `Materialize`: it gives each configuration its own record of the shared list.
- `output` read before `resolve`: the source raises `AttributeError`. The model reports `NotResolved` and otherwise carries on as the source does.
- Writers (`YamlWriter`, `JsonWriter`, `IniWriter`), file-system I/O and `precommit.py` are left out; a write is a `Written` event.
- Logging and `__repr__` are left out.
- Serialization.Serialize: a listed field without an attribute fails with `MissingAttribute`, where the source raises `AttributeError`. The model's own templates cannot produce this case.
