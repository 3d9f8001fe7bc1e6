/** Small wrappers for optional values, results and pass/fail outcomes used across the model. */
module Wrappers {

  datatype Option<+T> = None | Some(value: T)

  datatype Result<+T, +E> = Ok(value: T) | Err(error: E)

  /** The outcome of a step that either passes or raises. */
  datatype Outcome<+E> = Pass | Fail(error: E)
}

/**
 * The values a configuration template can hold, and the template record itself
 * (configenerator.py: class Template).
 */
module Values {
  import opened Wrappers

  /**
   * A Python value as far as the configuration engine can tell them apart.
   * Floats are opaque tokens; a callable is identified by `id` and given a
   * meaning by an `Interp`; `Object` is any other object (e.g. `object()`).
   * Dictionaries keep their insertion order in `keys`.
   */
  datatype Value =
    | Str(s: string)
    | Bytes(bytes: seq<bv8>)
    | Int(i: int)
    | Bool(b: bool)
    | Float(token: nat)
    | Null
    | List(elems: seq<Value>)
    | Tuple(elems: seq<Value>)
    | Set(elems: seq<Value>)
    | Dict(keys: seq<string>, items: map<string, Value>)
    | Tmpl(t: Template)
    | Func(id: nat)
    | Object(id: nat)

  /** An open record: the ordered list `fields` and one attribute per field. */
  datatype Template = Template(fields: seq<string>, attrs: map<string, Value>)

  /** The meaning of the callables: `apply(id, x)` is the callable `id` called on `x`. */
  type Interp = (nat, Value) -> Value

  /** `Template()` */
  const Empty := Template([], map[])

  /** `getattr(t, f)`; a template the source builds always has the attribute. */
  function Attr(t: Template, f: string): Value {
    if f in t.attrs then t.attrs[f] else Null
  }

  predicate Distinct<T(==)>(s: seq<T>) {
    forall i, j | 0 <= i < j < |s| :: s[i] != s[j]
  }

  /**
   * The representation invariant of every template the source can build:
   * no field is listed twice, every listed field has an attribute and nothing
   * else does, and every nested value is well formed too.
   */
  ghost predicate Valid(t: Template)
    decreases t
  {
    && Distinct(t.fields)
    && (forall f :: f in t.fields <==> f in t.attrs)
    && forall f | f in t.attrs :: ValidValue(t.attrs[f])
  }

  ghost predicate ValidValue(v: Value)
    decreases v
  {
    match v
    case List(es) => forall i | 0 <= i < |es| :: ValidValue(es[i])
    case Tuple(es) => forall i | 0 <= i < |es| :: ValidValue(es[i])
    case Set(es) => forall i | 0 <= i < |es| :: ValidValue(es[i])
    case Dict(keys, items) =>
      && Distinct(keys)
      && (forall k :: k in keys <==> k in items)
      && forall k | k in items :: ValidValue(items[k])
    case Tmpl(t) => Valid(t)
    case _ => true
  }

  /** The names of a list of named entries, in order. */
  function Keys<T>(entries: seq<(string, T)>): (keys: seq<string>)
    ensures |keys| == |entries|
    ensures forall i | 0 <= i < |entries| :: keys[i] == entries[i].0
  {
    seq(|entries|, i requires 0 <= i < |entries| => entries[i].0)
  }

  /**
   * `Template(**kwargs)`: the fields are the keyword names in order, each
   * bound to its value. Keyword names are distinct in Python.
   */
  function Make(kwargs: seq<(string, Value)>): (t: Template)
    requires Distinct(Keys(kwargs))
    ensures t.fields == Keys(kwargs)
    ensures forall f :: f in t.fields <==> f in t.attrs
    ensures forall i | 0 <= i < |kwargs| :: t.attrs[kwargs[i].0] == kwargs[i].1
  {
    Template(Keys(kwargs), map i | 0 <= i < |kwargs| :: kwargs[i].0 := kwargs[i].1)
  }

  /** A template built from well-formed values satisfies the invariant. */
  lemma MakeValid(kwargs: seq<(string, Value)>)
    requires Distinct(Keys(kwargs))
    requires forall i | 0 <= i < |kwargs| :: ValidValue(kwargs[i].1)
    ensures Valid(Make(kwargs))
  {
    var t := Make(kwargs);
    forall f | f in t.attrs ensures ValidValue(t.attrs[f]) {
      var i :| 0 <= i < |kwargs| && kwargs[i].0 == f;
    }
  }

  /** A two-field template of well-formed values under distinct names is well formed. */
  lemma ValidPair(a: string, b: string, va: Value, vb: Value)
    requires a != b && ValidValue(va) && ValidValue(vb)
    ensures Valid(Template([a, b], map[a := va, b := vb]))
  {
  }

  /** A three-field template of well-formed values under distinct names is well formed. */
  lemma ValidTriple(a: string, b: string, c: string, va: Value, vb: Value, vc: Value)
    requires a != b && a != c && b != c
    requires ValidValue(va) && ValidValue(vb) && ValidValue(vc)
    ensures Valid(Template([a, b, c], map[a := va, b := vb, c := vc]))
  {
  }
}
