/**
 * Python's `==` on configuration values, including `Template.__eq__`
 * (configenerator.py:26-32), and the validator acceptance rule
 * `result in (True, None)` (configenerator.py:121, 166).
 */
module Equality {
  import opened Values

  function BoolToInt(b: bool): int {
    if b then 1 else 0
  }

  /**
   * `t == other` by `Template.__eq__`: the field lists must agree in order,
   * then every field's values must compare equal. A value that is not a
   * template has no `fields` attribute, so it is compared as if its field
   * list were `[]`.
   */
  predicate Equals(t: Template, other: Value)
    decreases t, 1
  {
    match other
    case Tmpl(u) =>
      && t.fields == u.fields
      && forall f | f in t.fields :: f in t.attrs && PyEq(t.attrs[f], Attr(u, f))
    case _ => t.fields == []
  }

  /**
   * `a == b`. A template on the left decides with `Template.__eq__`; a
   * template on the right only (every other kind answers NotImplemented)
   * decides with the reflected `Template.__eq__`. `True == 1`; floats are
   * opaque tokens; callables and plain objects compare by identity.
   */
  predicate PyEq(a: Value, b: Value)
    decreases a, 1
  {
    if a.Tmpl? then Equals(a.t, b)
    else if b.Tmpl? then b.t.fields == []
    else
      match a
      case Str(s) => b.Str? && b.s == s
      case Bytes(x) => b.Bytes? && b.bytes == x
      case Int(i) => (b.Int? && b.i == i) || (b.Bool? && BoolToInt(b.b) == i)
      case Bool(c) => (b.Bool? && b.b == c) || (b.Int? && b.i == BoolToInt(c))
      case Float(x) => b.Float? && b.token == x
      case Null => b.Null?
      case List(es) =>
        && b.List? && |es| == |b.elems|
        && forall i | 0 <= i < |es| :: PyEq(es[i], b.elems[i])
      case Tuple(es) =>
        && b.Tuple? && |es| == |b.elems|
        && forall i | 0 <= i < |es| :: PyEq(es[i], b.elems[i])
      case Set(es) =>
        && b.Set?
        && (forall i | 0 <= i < |es| :: Member(es[i], b.elems))
        && (forall j | 0 <= j < |b.elems| :: Covered(es, b.elems[j]))
      case Dict(_, m) =>
        && b.Dict? && m.Keys == b.items.Keys
        && forall k | k in m :: PyEq(m[k], b.items[k])
      case Func(x) => b.Func? && b.id == x
      case Object(x) => b.Object? && b.id == x
      case Tmpl(_) => false
  }

  /** `x in ys` for the elements of a set: some element compares equal to `x`. */
  predicate Member(x: Value, ys: seq<Value>)
    decreases x, 2
  {
    exists j | 0 <= j < |ys| :: PyEq(x, ys[j])
  }

  /** Some element of `xs` compares equal to `y` (with the element on the left). */
  predicate Covered(xs: seq<Value>, y: Value)
    decreases xs, 0
  {
    exists i | 0 <= i < |xs| :: PyEq(xs[i], y)
  }

  /** `r in (True, None)`: the tuple compares `True == r`, then `None == r`. */
  predicate Accepted(r: Value) {
    PyEq(Bool(true), r) || PyEq(Null, r)
  }

  /** Every well-formed value equals itself. */
  lemma {:induction false} PyEqReflexive(v: Value)
    requires ValidValue(v)
    ensures PyEq(v, v)
    decreases v, 1
  {
    match v
    case Tmpl(t) => EqualsReflexive(t);
    case List(es) =>
      forall i | 0 <= i < |es| ensures PyEq(es[i], es[i]) { PyEqReflexive(es[i]); }
    case Tuple(es) =>
      forall i | 0 <= i < |es| ensures PyEq(es[i], es[i]) { PyEqReflexive(es[i]); }
    case Set(es) =>
      forall i | 0 <= i < |es| ensures Member(es[i], es) && Covered(es, es[i]) {
        PyEqReflexive(es[i]);
      }
    case Dict(_, m) =>
      forall k | k in m ensures PyEq(m[k], m[k]) { PyEqReflexive(m[k]); }
    case _ =>
  }

  /** A well-formed template equals itself (`__eq__` is reflexive). */
  lemma {:induction false} EqualsReflexive(t: Template)
    requires Valid(t)
    ensures Equals(t, Tmpl(t))
    decreases t, 0
  {
    forall f | f in t.fields ensures f in t.attrs && PyEq(t.attrs[f], Attr(t, f)) {
      PyEqReflexive(t.attrs[f]);
    }
  }

  /** `==` is symmetric on well-formed values. */
  lemma {:induction false} PyEqSymmetric(a: Value, b: Value)
    requires ValidValue(a) && ValidValue(b) && PyEq(a, b)
    ensures PyEq(b, a)
    decreases a
  {
    if a.Tmpl? {
      if b.Tmpl? {
        forall f | f in b.t.fields ensures f in b.t.attrs && PyEq(b.t.attrs[f], Attr(a.t, f)) {
          PyEqSymmetric(a.t.attrs[f], b.t.attrs[f]);
        }
      }
    } else if !b.Tmpl? {
      match a
      case List(es) =>
        forall i | 0 <= i < |es| ensures PyEq(b.elems[i], es[i]) { PyEqSymmetric(es[i], b.elems[i]); }
      case Tuple(es) =>
        forall i | 0 <= i < |es| ensures PyEq(b.elems[i], es[i]) { PyEqSymmetric(es[i], b.elems[i]); }
      case Set(es) =>
        forall j | 0 <= j < |b.elems| ensures Member(b.elems[j], es) {
          assert Covered(es, b.elems[j]);
          var i :| 0 <= i < |es| && PyEq(es[i], b.elems[j]);
          PyEqSymmetric(es[i], b.elems[j]);
        }
        forall i | 0 <= i < |es| ensures Covered(b.elems, es[i]) {
          assert Member(es[i], b.elems);
          var j :| 0 <= j < |b.elems| && PyEq(es[i], b.elems[j]);
          PyEqSymmetric(es[i], b.elems[j]);
        }
      case Dict(_, m) =>
        forall k | k in b.items ensures PyEq(b.items[k], m[k]) { PyEqSymmetric(m[k], b.items[k]); }
      case _ =>
    }
  }

  /**
   * `==` is not transitive: the empty template equals both `1` and `None`,
   * which differ.
   */
  lemma EqualityNotTransitive()
    ensures PyEq(Int(1), Tmpl(Empty)) && PyEq(Tmpl(Empty), Null) && !PyEq(Int(1), Null)
  {
  }

  /** Equal templates list the same fields in the same order. */
  lemma EqualsSameFieldOrder(t: Template, u: Template)
    requires Equals(t, Tmpl(u))
    ensures t.fields == u.fields
  {
  }

  /**
   * The empty template equals every value that is not a template (`None`,
   * `0`, `{}` ...), from both sides; a template with fields equals none of them.
   */
  lemma NonTemplateComparison(t: Template, v: Value)
    requires !v.Tmpl?
    ensures Equals(t, v) <==> t.fields == []
    ensures PyEq(v, Tmpl(t)) <==> t.fields == []
  {
  }

  /**
   * The results a validator may return without failing: exactly `True`,
   * `1` (equal to `True`), `None`, and the empty template (equal to anything
   * without fields). `False`, `0`, a non-empty string or list fail.
   */
  lemma AcceptedValues(r: Value)
    ensures Accepted(r) <==> r == Bool(true) || r == Int(1) || r == Null || (r.Tmpl? && r.t.fields == [])
  {
  }

  /** The flat cases of test_template.py:9-11 and 14-15; `Template(a=1)` is `Template(["a"], map["a" := Int(1)])`. */
  lemma ComparisonExamples()
    ensures Equals(Empty, Tmpl(Empty))
    ensures Equals(Template(["a"], map["a" := Int(1)]), Tmpl(Template(["a"], map["a" := Int(1)])))
    ensures !Equals(Template(["a"], map["a" := Int(1)]), Tmpl(Template(["a"], map["a" := Int(2)])))
    ensures !Equals(Template(["a", "b"], map["a" := Int(1), "b" := Int(2)]), Tmpl(Template(["b"], map["b" := Int(2)])))
    ensures !Equals(Template(["a"], map["a" := Int(1)]), Tmpl(Template(["a", "b"], map["a" := Int(1), "b" := Int(2)])))
  {
    SingleFieldEquals("a", Int(1), Int(1));
    SingleFieldEquals("a", Int(1), Int(2));
    FieldListsDiffer(Template(["a", "b"], map["a" := Int(1), "b" := Int(2)]), Template(["b"], map["b" := Int(2)]));
    FieldListsDiffer(Template(["a"], map["a" := Int(1)]), Template(["a", "b"], map["a" := Int(1), "b" := Int(2)]));
  }

  /** Templates whose field lists differ (in length) are unequal, whatever their values. */
  lemma FieldListsDiffer(t: Template, u: Template)
    requires |t.fields| != |u.fields|
    ensures !Equals(t, Tmpl(u))
  {
  }

  /** The nested cases of test_template.py:12-13. */
  lemma NestedComparisonExamples()
    ensures Equals(Template(["a"], map["a" := Tmpl(Template(["a"], map["a" := Int(1)]))]),
                   Tmpl(Template(["a"], map["a" := Tmpl(Template(["a"], map["a" := Int(1)]))])))
    ensures !Equals(Template(["a"], map["a" := Tmpl(Template(["a"], map["a" := Int(1)]))]),
                    Tmpl(Template(["a"], map["a" := Tmpl(Template(["a"], map["a" := Int(2)]))])))
  {
    var one := Template(["a"], map["a" := Int(1)]);
    var two := Template(["a"], map["a" := Int(2)]);
    SingleFieldEquals("a", Int(1), Int(1));
    SingleFieldEquals("a", Int(1), Int(2));
    SingleFieldEquals("a", Tmpl(one), Tmpl(one));
    SingleFieldEquals("a", Tmpl(one), Tmpl(two));
  }

  /** Two one-field templates on the same name are equal exactly when their values are. */
  lemma SingleFieldEquals(k: string, v: Value, w: Value)
    ensures Equals(Template([k], map[k := v]), Tmpl(Template([k], map[k := w]))) <==> PyEq(v, w)
  {
    assert k in [k];
  }

  /** Field order matters: the same attributes listed in another order are unequal. */
  lemma FieldOrderMatters()
    ensures !Equals(Template(["a", "b"], map["a" := Int(1), "b" := Int(2)]),
                    Tmpl(Template(["b", "a"], map["a" := Int(1), "b" := Int(2)])))
  {
  }

  /** `Template(**kwargs)` is the template listing exactly the keywords, in order, with their values. */
  lemma MakeIs(kwargs: seq<(string, Value)>, t: Template)
    requires Distinct(Keys(kwargs))
    requires t.fields == Keys(kwargs)
    requires forall f :: f in t.fields <==> f in t.attrs
    requires forall i | 0 <= i < |kwargs| :: t.attrs[kwargs[i].0] == kwargs[i].1
    ensures Make(kwargs) == t
  {
    var m := Make(kwargs);
    assert m.attrs.Keys == t.attrs.Keys;
    forall f | f in t.attrs ensures m.attrs[f] == t.attrs[f] {
      var i :| 0 <= i < |kwargs| && Keys(kwargs)[i] == f;
    }
  }
}
