/**
 * `NestedTemplate(path, value)` (configenerator.py:54-63): `value` wrapped
 * under a path of field names as a chain of single-field templates.
 */
module Nesting {
  import opened Wrappers
  import opened Values
  import opened Merging

  /** `path.pop(0)` on an empty path raises `IndexError`. */
  datatype NestError = PopFromEmptyList

  /** The value reached from `v` by following the field names of `path` through templates. */
  function Lookup(v: Value, path: seq<string>): Option<Value>
    decreases |path|
  {
    if path == [] then Some(v)
    else if v.Tmpl? && path[0] in v.t.fields then Lookup(Attr(v.t, path[0]), path[1..])
    else None
  }

  /** The chain of single-field templates for a non-empty path. */
  function Nest(path: seq<string>, v: Value): (t: Template)
    requires path != []
    ensures t.fields == [path[0]] && t.attrs.Keys == {path[0]}
    decreases |path|
  {
    if |path| == 1 then Template([path[0]], map[path[0] := v])
    else Template([path[0]], map[path[0] := Tmpl(Nest(path[1..], v))])
  }

  /** `NestedTemplate(path, v)`: fails exactly on the empty path. */
  function NestedTemplate(path: seq<string>, v: Value): (r: Result<Template, NestError>)
    ensures r.Err? <==> path == []
    ensures r.Ok? ==> Lookup(Tmpl(r.value), path) == Some(v)
  {
    if path == [] then Err(PopFromEmptyList)
    else
      NestedLookup(path, v);
      Ok(Nest(path, v))
  }

  /** Following the path through the chain reaches the wrapped value. */
  lemma {:induction false} NestedLookup(path: seq<string>, v: Value)
    requires path != []
    ensures Lookup(Tmpl(Nest(path, v)), path) == Some(v)
    decreases |path|
  {
    if |path| > 1 {
      NestedLookup(path[1..], v);
    }
  }

  /** The chain around a well-formed value is a well-formed template. */
  lemma {:induction false} NestValid(path: seq<string>, v: Value)
    requires path != [] && ValidValue(v)
    ensures Valid(Nest(path, v))
    decreases |path|
  {
    if |path| > 1 {
      NestValid(path[1..], v);
    }
  }

  /**
   * The cases of test_template.py:51-55: `NestedTemplate(("a"), "value")`
   * (the path `("a")` is the string "a", one field name) and
   * `NestedTemplate(("a", "b", "c"), "value")`.
   */
  lemma NestedExamples()
    ensures NestedTemplate(["a"], Str("value")) == Ok(Template(["a"], map["a" := Str("value")]))
    ensures NestedTemplate(["a", "b", "c"], Str("value"))
            == Ok(Template(["a"], map["a" := Tmpl(Template(["b"], map["b" := Tmpl(Template(["c"], map["c" := Str("value")]))]))]))
  {
    var abc := ["a", "b", "c"];
    assert abc[1..] == ["b", "c"] && abc[1..][1..] == ["c"];
  }

  /**
   * Merging a `NestedTemplate` sets the value at its path, whatever the
   * receiver held along the way, and leaves the receiver's other top-level
   * fields as they were.
   */
  lemma MergeNestedSetsPath(t: Template, path: seq<string>, v: Value, apply: Interp)
    requires path != [] && ValidValue(v) && !v.Func? && !v.Tmpl?
    ensures Valid(Nest(path, v))
    ensures Lookup(Tmpl(Merge(t, Nest(path, v), apply)), path) == Some(v)
    ensures forall g | g != path[0] :: Attr(Merge(t, Nest(path, v), apply), g) == Attr(t, g)
  {
    NestValid(path, v);
    MergeNestedReaches(t, path, v, apply);
    forall g | g != path[0] ensures Attr(Merge(t, Nest(path, v), apply), g) == Attr(t, g) {
      MergeUntouched(t, Nest(path, v), apply, g);
    }
  }

  lemma {:induction false} MergeNestedReaches(t: Template, path: seq<string>, v: Value, apply: Interp)
    requires path != [] && ValidValue(v) && !v.Func? && !v.Tmpl? && Valid(Nest(path, v))
    ensures Lookup(Tmpl(Merge(t, Nest(path, v), apply)), path) == Some(v)
    decreases |path|
  {
    var k := path[0];
    var chain := Nest(path, v);
    var r := Merge(t, chain, apply);
    assert k in r.fields by {
      MergedFields(t, chain, apply);
    }
    var current := if k in t.fields then Attr(t, k) else chain.attrs[k];
    assert Attr(r, k) == Combine(current, chain.attrs[k], apply) by {
      MergeTouched(t, chain, apply, k);
    }
    LookupStep(r, path);
    if |path| > 1 {
      var rest := path[1..];
      assert chain.attrs[k] == Tmpl(Nest(rest, v));
      if current.Tmpl? {
        NestValid(rest, v);
        MergeNestedReaches(current.t, rest, v, apply);
      } else {
        NestedLookup(rest, v);
      }
    } else {
      assert path[1..] == [];
    }
  }

  lemma LookupStep(t: Template, path: seq<string>)
    requires path != [] && path[0] in t.fields
    ensures Lookup(Tmpl(t), path) == Lookup(Attr(t, path[0]), path[1..])
  {
  }
}
