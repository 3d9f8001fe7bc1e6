/**
 * `Template.merge_from` (configenerator.py:37-51): layering one template on
 * top of another. `Merge` is the specification, a fold over the incoming
 * field list; `MergeFrom` is the loop of the source, proved equal to it.
 */
module Merging {
  import opened Values

  /**
   * The value a field holds after an incoming value arrives over `current`
   * (configenerator.py:43-50): a callable is applied to the current value, a
   * template arriving over a template is merged into it, anything else
   * replaces it.
   */
  function Combine(current: Value, incoming: Value, apply: Interp): Value
    requires ValidValue(incoming)
    decreases incoming, 3
  {
    match incoming
    case Func(id) => apply(id, current)
    case Tmpl(u) => if current.Tmpl? then Tmpl(Merge(current.t, u, apply)) else incoming
    case _ => incoming
  }

  /**
   * One iteration of the loop for field `name`. An unseen name is appended and
   * bound to the incoming value first, and the three-way rule then runs
   * anyway, with the incoming value as the current one (configenerator.py:40-42
   * does not skip to the next field).
   */
  function MergeField(t: Template, name: string, incoming: Value, apply: Interp): Template
    requires ValidValue(incoming)
    decreases incoming, 4
  {
    var known := name in t.fields;
    var fields := if known then t.fields else t.fields + [name];
    var current := if known then Attr(t, name) else incoming;
    Template(fields, t.attrs[name := Combine(current, incoming, apply)])
  }

  /** The first `n` iterations of the loop over `other.fields`. */
  function MergePrefix(t: Template, other: Template, n: nat, apply: Interp): Template
    requires Valid(other) && n <= |other.fields|
    decreases other, 1, n
  {
    if n == 0 then t
    else
      var name := other.fields[n - 1];
      MergeField(MergePrefix(t, other, n - 1, apply), name, other.attrs[name], apply)
  }

  /** `t` after `t.merge_from(other)`. */
  function Merge(t: Template, other: Template, apply: Interp): Template
    requires Valid(other)
    decreases other, 2
  {
    MergePrefix(t, other, |other.fields|, apply)
  }

  /** `t.merge_from(other)`, one field of `other` at a time; the new state of `t` is `r`. */
  method MergeFrom(t: Template, other: Template, apply: Interp) returns (r: Template)
    requires Valid(other)
    ensures r == Merge(t, other, apply)
    decreases other
  {
    r := t;
    var i := 0;
    while i < |other.fields|
      invariant 0 <= i <= |other.fields|
      invariant r == MergePrefix(t, other, i, apply)
    {
      ghost var before := r;
      var name := other.fields[i];
      var value := other.attrs[name];
      var fields := r.fields;
      var attrs := r.attrs;
      if name !in fields {
        fields := fields + [name];
        attrs := attrs[name := value];
      }
      var current := if name in attrs then attrs[name] else Null;
      assert current == (if name in before.fields then Attr(before, name) else value);
      var result: Value;
      match value {
        case Func(id) =>
          result := apply(id, current);
        case Tmpl(u) =>
          if current.Tmpl? {
            var merged := MergeFrom(current.t, u, apply);
            result := Tmpl(merged);
          } else {
            result := value;
          }
        case _ =>
          result := value;
      }
      assert result == Combine(current, value, apply);
      assert attrs[name := result] == before.attrs[name := result];
      attrs := attrs[name := result];
      r := Template(fields, attrs);
      assert r == MergeField(before, name, value, apply);
      i := i + 1;
    }
  }

  /** The names of `names` that are not in `known`, first occurrences only, in order. */
  function Unseen(names: seq<string>, known: seq<string>): seq<string> {
    if names == [] then []
    else
      var init := Unseen(names[..|names| - 1], known);
      var last := names[|names| - 1];
      if last in known || last in init then init else init + [last]
  }

  lemma {:induction false} UnseenIs(names: seq<string>, known: seq<string>)
    ensures forall x :: x in Unseen(names, known) <==> x in names && x !in known
    ensures Distinct(Unseen(names, known))
    ensures (forall x | x in names :: x in known) ==> Unseen(names, known) == []
  {
    if names != [] {
      var init := names[..|names| - 1];
      UnseenIs(init, known);
      assert names == init + [names[|names| - 1]];
    }
  }

  lemma {:induction false} PrefixFields(t: Template, other: Template, n: nat, apply: Interp)
    requires Valid(other) && n <= |other.fields|
    ensures MergePrefix(t, other, n, apply).fields == t.fields + Unseen(other.fields[..n], t.fields)
  {
    if n > 0 {
      PrefixFields(t, other, n - 1, apply);
      assert other.fields[..n][..n - 1] == other.fields[..n - 1];
      UnseenIs(other.fields[..n - 1], t.fields);
    }
  }

  lemma {:induction false} PrefixUntouched(t: Template, other: Template, n: nat, apply: Interp, f: string)
    requires Valid(other) && n <= |other.fields|
    requires f !in other.fields[..n]
    ensures Attr(MergePrefix(t, other, n, apply), f) == Attr(t, f)
    ensures f in MergePrefix(t, other, n, apply).attrs <==> f in t.attrs
  {
    if n > 0 {
      assert other.fields[..n] == other.fields[..n - 1] + [other.fields[n - 1]];
      PrefixUntouched(t, other, n - 1, apply, f);
    }
  }

  lemma {:induction false} PrefixKeys(t: Template, other: Template, n: nat, apply: Interp)
    requires Valid(other) && n <= |other.fields|
    ensures forall f :: f in MergePrefix(t, other, n, apply).attrs <==> f in t.attrs || f in other.fields[..n]
  {
    if n > 0 {
      assert other.fields[..n] == other.fields[..n - 1] + [other.fields[n - 1]];
      PrefixKeys(t, other, n - 1, apply);
    }
  }

  /** The value of a field `other` names is settled in that field's own iteration and kept after. */
  lemma {:induction false} PrefixTouched(t: Template, other: Template, n: nat, apply: Interp, k: nat)
    requires Valid(other) && k < n <= |other.fields|
    ensures var f := other.fields[k];
            Attr(MergePrefix(t, other, n, apply), f)
            == Combine(if f in t.fields then Attr(t, f) else other.attrs[f], other.attrs[f], apply)
  {
    var f := other.fields[k];
    if n == k + 1 {
      var before := MergePrefix(t, other, k, apply);
      assert f in before.fields <==> f in t.fields by {
        PrefixFields(t, other, k, apply);
        UnseenIs(other.fields[..k], t.fields);
      }
      assert Attr(before, f) == Attr(t, f) by {
        assert f !in other.fields[..k];
        PrefixUntouched(t, other, k, apply, f);
      }
    } else {
      PrefixTouched(t, other, n - 1, apply, k);
    }
  }

  /**
   * The field list after a merge is the old list followed by the names of
   * `other` it did not have, in `other`'s order; no name is listed twice; a
   * field has a value exactly when either side had it.
   */
  lemma MergedFields(t: Template, other: Template, apply: Interp)
    requires Valid(other)
    ensures Merge(t, other, apply).fields == t.fields + Unseen(other.fields, t.fields)
    ensures forall x :: x in Unseen(other.fields, t.fields) <==> x in other.fields && x !in t.fields
    ensures Distinct(t.fields) ==> Distinct(Merge(t, other, apply).fields)
    ensures forall f :: f in Merge(t, other, apply).attrs <==> f in t.attrs || f in other.fields
  {
    var n := |other.fields|;
    assert other.fields[..n] == other.fields;
    PrefixFields(t, other, n, apply);
    PrefixKeys(t, other, n, apply);
    UnseenIs(other.fields, t.fields);
    var r := Merge(t, other, apply).fields;
    var u := Unseen(other.fields, t.fields);
    if Distinct(t.fields) {
      forall i, j | 0 <= i < j < |r| ensures r[i] != r[j] {
        if j < |t.fields| {
          assert r[i] == t.fields[i] && r[j] == t.fields[j];
        } else if i < |t.fields| {
          assert r[i] == t.fields[i] && r[j] == u[j - |t.fields|];
          assert r[j] in u;
        } else {
          assert r[i] == u[i - |t.fields|] && r[j] == u[j - |t.fields|];
        }
      }
    }
  }

  /** A field `other` does not name keeps its value (configenerator.py:38). */
  lemma MergeUntouched(t: Template, other: Template, apply: Interp, f: string)
    requires Valid(other) && f !in other.fields
    ensures Attr(Merge(t, other, apply), f) == Attr(t, f)
  {
    var n := |other.fields|;
    assert other.fields[..n] == other.fields;
    PrefixUntouched(t, other, n, apply, f);
  }

  /**
   * A field `other` names ends with the three-way rule applied to its value
   * before the merge, or to the incoming value itself when it was new.
   */
  lemma MergeTouched(t: Template, other: Template, apply: Interp, f: string)
    requires Valid(other) && f in other.fields
    ensures Attr(Merge(t, other, apply), f)
            == Combine(if f in t.fields then Attr(t, f) else other.attrs[f], other.attrs[f], apply)
  {
    var k :| 0 <= k < |other.fields| && other.fields[k] == f;
    PrefixTouched(t, other, |other.fields|, apply, k);
  }

  /** A callable arriving over an existing field is applied to its value (test_template.py:29-34). */
  lemma MergeAppliesTransform(t: Template, other: Template, apply: Interp, f: string, id: nat)
    requires Valid(other) && f in other.fields && f in t.fields
    requires other.attrs[f] == Func(id)
    ensures Attr(Merge(t, other, apply), f) == apply(id, Attr(t, f))
  {
    MergeTouched(t, other, apply, f);
  }

  /** A non-callable, non-template value replaces whatever the field held. */
  lemma MergeOverrides(t: Template, other: Template, apply: Interp, f: string)
    requires Valid(other) && f in other.fields
    requires !other.attrs[f].Func? && !other.attrs[f].Tmpl?
    ensures Attr(Merge(t, other, apply), f) == other.attrs[f]
  {
    MergeTouched(t, other, apply, f);
  }

  /**
   * A template arriving over a template is merged into it, so the nested
   * fields the incoming template does not name survive (test_template.py:35-40).
   */
  lemma MergeNestedTemplates(t: Template, other: Template, apply: Interp, f: string, g: string)
    requires Valid(other) && f in other.fields && f in t.fields
    requires Attr(t, f).Tmpl? && other.attrs[f].Tmpl?
    requires g !in other.attrs[f].t.fields
    ensures Attr(Merge(t, other, apply), f).Tmpl?
    ensures Attr(Attr(Merge(t, other, apply), f).t, g) == Attr(Attr(t, f).t, g)
  {
    MergeTouched(t, other, apply, f);
    MergeUntouched(Attr(t, f).t, other.attrs[f].t, apply, g);
  }

  /**
   * The new-field quirk: a callable arriving under a name the receiver does
   * not have is stored as the callable applied to itself.
   */
  lemma MergeNewCallable(t: Template, other: Template, apply: Interp, f: string, id: nat)
    requires Valid(other) && f in other.fields && f !in t.fields
    requires other.attrs[f] == Func(id)
    ensures Attr(Merge(t, other, apply), f) == apply(id, Func(id))
  {
    MergeTouched(t, other, apply, f);
  }

  /** The new-field quirk for templates: a new template field is merged into itself. */
  lemma MergeNewTemplate(t: Template, other: Template, apply: Interp, f: string, u: Template)
    requires Valid(other) && Valid(u) && f in other.fields && f !in t.fields
    requires other.attrs[f] == Tmpl(u)
    ensures Attr(Merge(t, other, apply), f) == Tmpl(Merge(u, u, apply))
  {
    MergeTouched(t, other, apply, f);
  }

  /** Templates in which merging meets no callable: no field, at any template depth, holds one. */
  ghost predicate NoTransforms(t: Template)
    decreases t
  {
    forall f | f in t.attrs :: NoTransform(t.attrs[f])
  }

  ghost predicate NoTransform(v: Value)
    decreases v
  {
    match v
    case Func(_) => false
    case Tmpl(u) => NoTransforms(u)
    case _ => true
  }

  lemma NoTransformsPair(a: string, b: string, va: Value, vb: Value)
    requires NoTransform(va) && NoTransform(vb)
    ensures NoTransforms(Template([a, b], map[a := va, b := vb]))
  {
  }

  lemma NoTransformsTriple(a: string, b: string, c: string, va: Value, vb: Value, vc: Value)
    requires NoTransform(va) && NoTransform(vb) && NoTransform(vc)
    ensures NoTransforms(Template([a, b, c], map[a := va, b := vb, c := vc]))
  {
  }

  /** Without callables, a value arriving over itself leaves it as it is. */
  lemma {:induction false} CombineSelf(v: Value, apply: Interp)
    requires ValidValue(v) && NoTransform(v)
    ensures Combine(v, v, apply) == v
    decreases v, 1
  {
    if v.Tmpl? {
      SelfMerge(v.t, apply);
    }
  }

  /** Without callables, merging a template into itself changes nothing. */
  lemma {:induction false} SelfMerge(t: Template, apply: Interp)
    requires Valid(t) && NoTransforms(t)
    ensures Merge(t, t, apply) == t
    decreases t, 0
  {
    var r := Merge(t, t, apply);
    MergedFields(t, t, apply);
    UnseenIs(t.fields, t.fields);
    forall f | f in t.attrs ensures r.attrs[f] == t.attrs[f] {
      MergeTouched(t, t, apply, f);
      CombineSelf(t.attrs[f], apply);
    }
  }

  /**
   * Without callables, a brand-new field is plain insertion: merging a
   * template into an empty one gives that template (test_template.py:25).
   */
  lemma MergeIntoEmpty(other: Template, apply: Interp)
    requires Valid(other) && NoTransforms(other)
    ensures Merge(Empty, other, apply) == other
  {
    var e := Empty;
    var r := Merge(e, other, apply);
    assert r.fields == other.fields by {
      MergedFields(e, other, apply);
      UnseenDistinct(other.fields);
    }
    assert r.attrs.Keys == other.attrs.Keys by {
      MergedFields(e, other, apply);
    }
    forall f | f in other.attrs ensures r.attrs[f] == other.attrs[f] {
      MergeTouched(e, other, apply, f);
      CombineSelf(other.attrs[f], apply);
    }
  }

  /** With nothing known, the unseen names of a list without repetition are the list itself. */
  lemma {:induction false} UnseenDistinct(names: seq<string>)
    requires Distinct(names)
    ensures Unseen(names, []) == names
  {
    if names != [] {
      var init := names[..|names| - 1];
      UnseenDistinct(init);
      UnseenIs(init, []);
    }
  }

  /** Merging from an empty template leaves the receiver as it is (test_template.py:26). */
  lemma MergeFromEmpty(t: Template, apply: Interp)
    ensures Merge(t, Empty, apply) == t
  {
    assert Valid(Empty);
  }

  /** Every callable produces a well-formed value. */
  ghost predicate ValidInterp(apply: Interp) {
    forall id, x :: ValidValue(apply(id, x))
  }

  lemma {:induction false} CombineValid(current: Value, incoming: Value, apply: Interp)
    requires ValidValue(current) && ValidValue(incoming) && ValidInterp(apply)
    ensures ValidValue(Combine(current, incoming, apply))
    decreases incoming, 1
  {
    if incoming.Tmpl? && current.Tmpl? {
      MergePreservesValid(current.t, incoming.t, apply);
    }
  }

  /** Merging well-formed templates gives a well-formed template. */
  lemma {:induction false} MergePreservesValid(t: Template, other: Template, apply: Interp)
    requires Valid(t) && Valid(other) && ValidInterp(apply)
    ensures Valid(Merge(t, other, apply))
    decreases other, 0
  {
    var r := Merge(t, other, apply);
    MergedFields(t, other, apply);
    forall f | f in r.attrs ensures ValidValue(r.attrs[f]) {
      if f in other.fields {
        MergeTouched(t, other, apply, f);
        CombineValid(if f in t.fields then Attr(t, f) else other.attrs[f], other.attrs[f], apply);
      } else {
        MergeUntouched(t, other, apply, f);
      }
    }
  }

  /** The merge cases of test_template.py:25-28, with `Template(a=1)` written out. */
  lemma MergeExamples(apply: Interp)
    ensures Merge(Empty, Template(["a"], map["a" := Int(1)]), apply) == Template(["a"], map["a" := Int(1)])
    ensures Merge(Template(["a"], map["a" := Int(1)]), Empty, apply) == Template(["a"], map["a" := Int(1)])
    ensures Merge(Template(["a"], map["a" := Int(1)]), Template(["b"], map["b" := Int(2)]), apply)
            == Template(["a", "b"], map["a" := Int(1), "b" := Int(2)])
    ensures Merge(Template(["a"], map["a" := Int(1)]), Template(["a"], map["a" := Int(2)]), apply)
            == Template(["a"], map["a" := Int(2)])
  {
    var one := Template(["a"], map["a" := Int(1)]);
    assert Merge(Empty, one, apply) == one by {
      MergeOne(Empty, "a", Int(1), apply);
      assert Empty.attrs["a" := Int(1)] == one.attrs;
    }
    MergeFromEmpty(one, apply);
    assert Merge(one, Template(["b"], map["b" := Int(2)]), apply)
        == Template(["a", "b"], map["a" := Int(1), "b" := Int(2)]) by {
      MergeOne(one, "b", Int(2), apply);
      assert one.fields + ["b"] == ["a", "b"];
    }
    assert Merge(one, Template(["a"], map["a" := Int(2)]), apply) == Template(["a"], map["a" := Int(2)]) by {
      MergeOne(one, "a", Int(2), apply);
      assert one.attrs["a" := Int(2)] == map["a" := Int(2)];
    }
  }

  /** Merging a template with a single field is that field's iteration of the loop. */
  lemma MergeOne(t: Template, name: string, v: Value, apply: Interp)
    requires ValidValue(v)
    ensures Valid(Template([name], map[name := v]))
    ensures Merge(t, Template([name], map[name := v]), apply) == MergeField(t, name, v, apply)
  {
    var other := Template([name], map[name := v]);
    assert Valid(other);
    assert MergePrefix(t, other, 0, apply) == t;
  }

  /** test_template.py:29-34: `a=2` under `a=lambda x: x * 10` becomes `a=20`. */
  lemma MergeTransformExample(apply: Interp, times10: nat)
    requires apply(times10, Int(2)) == Int(20)
    ensures Merge(Template(["a"], map["a" := Int(2)]), Template(["a"], map["a" := Func(times10)]), apply)
            == Template(["a"], map["a" := Int(20)])
  {
    var t := Template(["a"], map["a" := Int(2)]);
    MergeOne(t, "a", Func(times10), apply);
    assert "a" in t.fields && Attr(t, "a") == Int(2);
    assert Combine(Int(2), Func(times10), apply) == Int(20);
    assert t.attrs["a" := Int(20)] == map["a" := Int(20)];
  }

  /** test_template.py:35-40: `a=T(b=1)` under `a=T(c=2)` becomes `a=T(b=1, c=2)`. */
  lemma MergeNestedExample(apply: Interp)
    ensures Merge(Template(["a"], map["a" := Tmpl(Template(["b"], map["b" := Int(1)]))]),
                  Template(["a"], map["a" := Tmpl(Template(["c"], map["c" := Int(2)]))]), apply)
            == Template(["a"], map["a" := Tmpl(Template(["b", "c"], map["b" := Int(1), "c" := Int(2)]))])
  {
    var b1 := Template(["b"], map["b" := Int(1)]);
    var c2 := Template(["c"], map["c" := Int(2)]);
    var bc := Template(["b", "c"], map["b" := Int(1), "c" := Int(2)]);
    assert Merge(b1, c2, apply) == bc by {
      MergeOne(b1, "c", Int(2), apply);
      assert b1.fields + ["c"] == ["b", "c"];
    }
    var t := Template(["a"], map["a" := Tmpl(b1)]);
    assert ValidValue(Tmpl(c2)) by { MergeOne(b1, "c", Int(2), apply); }
    MergeOne(t, "a", Tmpl(c2), apply);
    assert "a" in t.fields && Attr(t, "a") == Tmpl(b1);
    assert Combine(Tmpl(b1), Tmpl(c2), apply) == Tmpl(bc);
    assert t.attrs["a" := Tmpl(bc)] == map["a" := Tmpl(bc)];
  }
}
