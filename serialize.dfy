/**
 * `serialize_to_dict` (configenerator.py:66-82): a configuration value turned
 * into plain data for the writers. Templates become dictionaries keyed by
 * their sorted field names, dictionaries are rebuilt in sorted key order,
 * collections keep their kind, scalars pass through, anything else fails.
 */
module Serialization {
  import opened Wrappers
  import opened Values
  import opened Ordering

  /** Plain data; a dictionary lists its entries in insertion order. */
  datatype Plain =
    | PStr(s: string)
    | PBytes(bytes: seq<bv8>)
    | PInt(i: int)
    | PBool(b: bool)
    | PFloat(token: nat)
    | PNull
    | PList(elems: seq<Plain>)
    | PTuple(elems: seq<Plain>)
    | PSet(elems: seq<Plain>)
    | PDict(entries: seq<(string, Plain)>)

  datatype SerializeError =
    | CannotSerialize(culprit: Value)   // `ValueError` (configenerator.py:82)
    | MissingAttribute(name: string)    // `getattr` on a listed field without a value

  /** The entries of a template or a dictionary, by name. */
  function Members(v: Value): map<string, Value>
    requires v.Tmpl? || v.Dict?
  {
    if v.Tmpl? then v.t.attrs else v.items
  }

  /** `serialize_to_dict(v)`; a failure carries the first value that could not be serialised. */
  function Serialize(v: Value): Result<Plain, SerializeError>
    decreases v, 1
  {
    match v
    case Tmpl(t) =>
      var r := SerializeNamed(v, Sort(t.fields));
      if r.Err? then Err(r.error) else Ok(PDict(r.value))
    case List(_) =>
      var r := SerializeElems(v, 0);
      if r.Err? then Err(r.error) else Ok(PList(r.value))
    case Set(_) =>
      var r := SerializeElems(v, 0);
      if r.Err? then Err(r.error) else Ok(PSet(r.value))
    case Tuple(_) =>
      var r := SerializeElems(v, 0);
      if r.Err? then Err(r.error) else Ok(PTuple(r.value))
    case Dict(keys, _) =>
      var r := SerializeNamed(v, Sort(keys));
      if r.Err? then Err(r.error) else Ok(PDict(r.value))
    case Str(s) => Ok(PStr(s))
    case Bytes(b) => Ok(PBytes(b))
    case Int(i) => Ok(PInt(i))
    case Bool(b) => Ok(PBool(b))
    case Float(x) => Ok(PFloat(x))
    case Null => Ok(PNull)
    case Func(_) => Err(CannotSerialize(v))
    case Object(_) => Err(CannotSerialize(v))
  }

  /** The entries for `names`, in that order, each value serialised; the first failure wins. */
  function SerializeNamed(v: Value, names: seq<string>): (r: Result<seq<(string, Plain)>, SerializeError>)
    requires v.Tmpl? || v.Dict?
    ensures r.Ok? ==> Keys(r.value) == names
    decreases v, 0, |names|
  {
    if names == [] then Ok([])
    else
      var k := names[0];
      var m := if v.Tmpl? then v.t.attrs else v.items;
      if k !in m then Err(MissingAttribute(k))
      else
        var x := Serialize(if v.Tmpl? then v.t.attrs[k] else v.items[k]);
        var rest := SerializeNamed(v, names[1..]);
        if x.Err? then Err(x.error)
        else if rest.Err? then Err(rest.error)
        else
          KeysCons(k, x.value, rest.value);
          assert names == [k] + names[1..];
          Ok([(k, x.value)] + rest.value)
  }

  lemma KeysCons(k: string, x: Plain, rest: seq<(string, Plain)>)
    ensures Keys([(k, x)] + rest) == [k] + Keys(rest)
  {
  }

  /** The elements of a list, set or tuple from position `from` on, each serialised, in order. */
  function SerializeElems(v: Value, from: nat): (r: Result<seq<Plain>, SerializeError>)
    requires v.List? || v.Tuple? || v.Set?
    requires from <= |v.elems|
    ensures r.Ok? ==> |r.value| == |v.elems| - from
    decreases v, 0, |v.elems| - from
  {
    if from == |v.elems| then Ok([])
    else
      var x := Serialize(v.elems[from]);
      var rest := SerializeElems(v, from + 1);
      if x.Err? then Err(x.error)
      else if rest.Err? then Err(rest.error)
      else Ok([x.value] + rest.value)
  }

  /** Each named entry holds the serialised value under its name. */
  lemma {:induction false} NamedEntries(v: Value, names: seq<string>)
    requires v.Tmpl? || v.Dict?
    requires SerializeNamed(v, names).Ok?
    ensures var entries := SerializeNamed(v, names).value;
            forall i | 0 <= i < |names| ::
              names[i] in Members(v) && Serialize(Members(v)[names[i]]) == Ok(entries[i].1)
    decreases |names|
  {
    if names != [] {
      NamedEntries(v, names[1..]);
    }
  }

  /** Each output element is the serialised element in the same position. */
  lemma {:induction false} ElemsEntries(v: Value, from: nat)
    requires v.List? || v.Tuple? || v.Set?
    requires from <= |v.elems| && SerializeElems(v, from).Ok?
    ensures var ps := SerializeElems(v, from).value;
            forall i | 0 <= i < |ps| :: Serialize(v.elems[from + i]) == Ok(ps[i])
    decreases |v.elems| - from
  {
    if from < |v.elems| {
      ElemsEntries(v, from + 1);
    }
  }

  /**
   * The values `serialize_to_dict` accepts, defined on their own: nothing
   * reachable is a callable or another object, and every listed field or key
   * has a value.
   */
  ghost predicate Serializable(v: Value)
    decreases v
  {
    match v
    case Func(_) => false
    case Object(_) => false
    case Tmpl(t) => forall f | f in t.fields :: f in t.attrs && Serializable(t.attrs[f])
    case Dict(keys, items) => forall k | k in keys :: k in items && Serializable(items[k])
    case List(es) => forall i | 0 <= i < |es| :: Serializable(es[i])
    case Tuple(es) => forall i | 0 <= i < |es| :: Serializable(es[i])
    case Set(es) => forall i | 0 <= i < |es| :: Serializable(es[i])
    case _ => true
  }

  lemma SortSameElements(s: seq<string>)
    ensures forall x :: x in Sort(s) <==> x in s
  {
    var r := Sort(s);
    forall x ensures x in r <==> x in s {
      assert x in r <==> x in multiset(r);
      assert x in s <==> x in multiset(s);
    }
  }

  /** Serialisation fails exactly on the values that hold a callable or another object. */
  lemma {:induction false} SerializeSucceedsIff(v: Value)
    ensures Serialize(v).Ok? <==> Serializable(v)
    decreases v, 1
  {
    match v
    case Tmpl(t) =>
      NamedSucceedsIff(v, Sort(t.fields));
      SortSameElements(t.fields);
    case Dict(keys, _) =>
      NamedSucceedsIff(v, Sort(keys));
      SortSameElements(keys);
    case List(es) =>
      ElemsSucceedIff(v, 0);
    case Tuple(es) =>
      ElemsSucceedIff(v, 0);
    case Set(es) =>
      ElemsSucceedIff(v, 0);
    case _ =>
  }

  lemma {:induction false} NamedSucceedsIff(v: Value, names: seq<string>)
    requires v.Tmpl? || v.Dict?
    ensures SerializeNamed(v, names).Ok?
            <==> forall k | k in names :: k in Members(v) && Serializable(Members(v)[k])
    decreases v, 0, |names|
  {
    if names != [] {
      var k := names[0];
      assert names == [k] + names[1..];
      NamedSucceedsIff(v, names[1..]);
      if k in Members(v) {
        SerializeSucceedsIff(Members(v)[k]);
      }
    }
  }

  lemma {:induction false} ElemsSucceedIff(v: Value, from: nat)
    requires v.List? || v.Tuple? || v.Set?
    requires from <= |v.elems|
    ensures SerializeElems(v, from).Ok? <==> forall i | from <= i < |v.elems| :: Serializable(v.elems[i])
    decreases v, 0, |v.elems| - from
  {
    if from < |v.elems| {
      ElemsSucceedIff(v, from + 1);
      SerializeSucceedsIff(v.elems[from]);
    }
  }

  /**
   * A template serialises to a dictionary whose keys are its field names in
   * sorted order, each with its value serialised.
   */
  lemma SerializedTemplate(t: Template)
    requires Valid(t) && Serializable(Tmpl(t))
    ensures Serialize(Tmpl(t)).Ok? && Serialize(Tmpl(t)).value.PDict?
    ensures var entries := Serialize(Tmpl(t)).value.entries;
            && Keys(entries) == Sort(t.fields)
            && Increasing(Keys(entries))
            && multiset(Keys(entries)) == multiset(t.fields)
            && forall i | 0 <= i < |entries| ::
                 entries[i].0 in t.attrs && Serialize(t.attrs[entries[i].0]) == Ok(entries[i].1)
  {
    SerializeSucceedsIff(Tmpl(t));
    SortDistinct(t.fields);
    NamedEntries(Tmpl(t), Sort(t.fields));
  }

  /**
   * Serialisation forgets the order of the fields: two templates with the
   * same values under the same names serialise alike, whatever order their
   * fields were listed in (where `==` tells them apart).
   */
  lemma SerializeIgnoresFieldOrder(t: Template, u: Template)
    requires multiset(t.fields) == multiset(u.fields) && t.attrs == u.attrs
    ensures Serialize(Tmpl(t)) == Serialize(Tmpl(u))
  {
    var names := Sort(t.fields);
    SortedUnique(names, Sort(u.fields));
    NamedSameMembers(Tmpl(t), Tmpl(u), names);
    SameEntriesAlike(t, u, names);
  }

  lemma SameEntriesAlike(t: Template, u: Template, names: seq<string>)
    requires Sort(t.fields) == names && Sort(u.fields) == names
    requires SerializeNamed(Tmpl(t), names) == SerializeNamed(Tmpl(u), names)
    ensures Serialize(Tmpl(t)) == Serialize(Tmpl(u))
  {
  }

  /** The named entries depend only on the values under the names. */
  lemma {:induction false} NamedSameMembers(v: Value, w: Value, names: seq<string>)
    requires (v.Tmpl? || v.Dict?) && (w.Tmpl? || w.Dict?) && Members(v) == Members(w)
    ensures SerializeNamed(v, names) == SerializeNamed(w, names)
    decreases |names|
  {
    if names != [] {
      NamedSameMembers(v, w, names[1..]);
    }
  }

  /** The output is canonical: every dictionary lists its keys in strictly increasing order. */
  ghost predicate Canonical(p: Plain)
    decreases p
  {
    match p
    case PDict(entries) =>
      && Increasing(Keys(entries))
      && forall i | 0 <= i < |entries| :: Canonical(entries[i].1)
    case PList(ps) => forall i | 0 <= i < |ps| :: Canonical(ps[i])
    case PTuple(ps) => forall i | 0 <= i < |ps| :: Canonical(ps[i])
    case PSet(ps) => forall i | 0 <= i < |ps| :: Canonical(ps[i])
    case _ => true
  }

  /** Serialising a well-formed value gives canonical data. */
  lemma {:induction false} SerializeCanonical(v: Value)
    requires ValidValue(v) && Serialize(v).Ok?
    ensures Canonical(Serialize(v).value)
    decreases v, 1
  {
    match v
    case Tmpl(t) =>
      SortDistinct(t.fields);
      NamedCanonical(v, Sort(t.fields));
    case Dict(keys, _) =>
      SortDistinct(keys);
      NamedCanonical(v, Sort(keys));
    case List(_) => ElemsCanonical(v, 0);
    case Tuple(_) => ElemsCanonical(v, 0);
    case Set(_) => ElemsCanonical(v, 0);
    case _ =>
  }

  lemma {:induction false} NamedCanonical(v: Value, names: seq<string>)
    requires (v.Tmpl? || v.Dict?) && ValidValue(v) && SerializeNamed(v, names).Ok?
    ensures var entries := SerializeNamed(v, names).value;
            forall i | 0 <= i < |entries| :: Canonical(entries[i].1)
    decreases v, 0, |names|
  {
    if names != [] {
      NamedCanonical(v, names[1..]);
      NamedEntries(v, names);
      var entries := SerializeNamed(v, names).value;
      var m := Members(v);
      assert names[0] in m && ValidValue(m[names[0]]);
      SerializeCanonical(m[names[0]]);
      forall i | 0 <= i < |entries| ensures Canonical(entries[i].1) {
        if i > 0 {
          assert entries[i] == SerializeNamed(v, names[1..]).value[i - 1];
        }
      }
    }
  }

  lemma {:induction false} ElemsCanonical(v: Value, from: nat)
    requires (v.List? || v.Tuple? || v.Set?) && ValidValue(v)
    requires from <= |v.elems| && SerializeElems(v, from).Ok?
    ensures var ps := SerializeElems(v, from).value;
            forall i | 0 <= i < |ps| :: Canonical(ps[i])
    decreases v, 0, |v.elems| - from
  {
    if from < |v.elems| {
      ElemsCanonical(v, from + 1);
      SerializeCanonical(v.elems[from]);
      var ps := SerializeElems(v, from).value;
      forall i | 0 <= i < |ps| ensures Canonical(ps[i]) {
        if i > 0 {
          assert ps[i] == SerializeElems(v, from + 1).value[i - 1];
        }
      }
    }
  }

  /** Plain data read back as a configuration value (dictionaries keep their entry order). */
  function Embed(p: Plain): Value
    decreases p, 1
  {
    match p
    case PStr(s) => Str(s)
    case PBytes(b) => Bytes(b)
    case PInt(i) => Int(i)
    case PBool(b) => Bool(b)
    case PFloat(x) => Float(x)
    case PNull => Null
    case PList(ps) => List(seq(|ps|, i requires 0 <= i < |ps| => Embed(ps[i])))
    case PTuple(ps) => Tuple(seq(|ps|, i requires 0 <= i < |ps| => Embed(ps[i])))
    case PSet(ps) => Set(seq(|ps|, i requires 0 <= i < |ps| => Embed(ps[i])))
    case PDict(entries) => Dict(Keys(entries), EmbedEntries(p, |entries|))
  }

  /** The first `n` entries of a dictionary as a map; a later entry wins. */
  function EmbedEntries(p: Plain, n: nat): (m: map<string, Value>)
    requires p.PDict? && n <= |p.entries|
    ensures forall k :: k in m <==> k in Keys(p.entries[..n])
    decreases p, 0, n
  {
    if n == 0 then map[]
    else
      assert p.entries[..n] == p.entries[..n - 1] + [p.entries[n - 1]];
      EmbedEntries(p, n - 1)[p.entries[n - 1].0 := Embed(p.entries[n - 1].1)]
  }

  lemma {:induction false} EmbedEntriesAt(p: Plain, n: nat, i: nat)
    requires p.PDict? && n <= |p.entries| && i < n
    requires Distinct(Keys(p.entries))
    ensures p.entries[i].0 in EmbedEntries(p, n)
    ensures EmbedEntries(p, n)[p.entries[i].0] == Embed(p.entries[i].1)
  {
    if i < n - 1 {
      EmbedEntriesAt(p, n - 1, i);
      assert Keys(p.entries)[i] != Keys(p.entries)[n - 1];
    }
  }

  /** Serialising canonical data read back gives the same data: serialisation is idempotent. */
  lemma {:induction false} ReserializeIsIdentity(p: Plain)
    requires Canonical(p)
    ensures Serialize(Embed(p)) == Ok(p)
    decreases p, 3
  {
    if p.PDict? {
      ReserializeDict(p);
    } else if p.PList? || p.PTuple? || p.PSet? {
      ReserializeCollection(p);
    }
  }

  lemma {:induction false} ReserializeDict(p: Plain)
    requires p.PDict? && Canonical(p)
    ensures Serialize(Embed(p)) == Ok(p)
    decreases p, 2
  {
    var entries := p.entries;
    var keys := Keys(entries);
    var v := Embed(p);
    assert v.Dict? && v.keys == keys;
    assert Sort(keys) == keys by {
      assert Sorted(keys);
      SortSorted(keys);
    }
    assert SerializeNamed(v, keys) == Ok(entries) by {
      EmbeddedEntries(p);
      NamedFromEntries(v, entries, 0);
      assert entries[0..] == entries && keys[0..] == keys;
    }
    SerializeDictOf(v, entries);
  }

  lemma SerializeDictOf(v: Value, entries: seq<(string, Plain)>)
    requires v.Dict? && v.keys == Keys(entries) && Sort(v.keys) == v.keys
    requires SerializeNamed(v, v.keys) == Ok(entries)
    ensures Serialize(v) == Ok(PDict(entries))
  {
  }

  lemma {:induction false} EmbeddedEntries(p: Plain)
    requires p.PDict? && Canonical(p)
    ensures Embed(p).Dict?
    ensures forall i | 0 <= i < |p.entries| ::
              p.entries[i].0 in Members(Embed(p)) && Serialize(Members(Embed(p))[p.entries[i].0]) == Ok(p.entries[i].1)
    decreases p, 1
  {
    forall i | 0 <= i < |p.entries|
      ensures p.entries[i].0 in Members(Embed(p)) && Serialize(Members(Embed(p))[p.entries[i].0]) == Ok(p.entries[i].1)
    {
      EmbeddedEntry(p, i);
    }
  }

  /** Entry `i` of canonical dictionary data is found again, serialising to itself, in the value read back. */
  lemma {:induction false} EmbeddedEntry(p: Plain, i: nat)
    requires p.PDict? && Canonical(p) && i < |p.entries|
    ensures Embed(p).Dict? && p.entries[i].0 in Members(Embed(p))
    ensures Serialize(Members(Embed(p))[p.entries[i].0]) == Ok(p.entries[i].1)
    decreases p, 0
  {
    var x := p.entries[i].1;
    assert Distinct(Keys(p.entries)) by { assert Increasing(Keys(p.entries)); }
    EmbedEntriesAt(p, |p.entries|, i);
    assert Canonical(x);
    ReserializeIsIdentity(x);
  }

  lemma {:induction false} ReserializeCollection(p: Plain)
    requires (p.PList? || p.PTuple? || p.PSet?) && Canonical(p)
    ensures Serialize(Embed(p)) == Ok(p)
    decreases p, 1
  {
    var v := Embed(p);
    EmbedElems(p);
    forall i | 0 <= i < |p.elems| ensures Serialize(v.elems[i]) == Ok(p.elems[i]) {
      assert Canonical(p.elems[i]);
      ReserializeIsIdentity(p.elems[i]);
    }
    ElemsFromParts(v, p.elems, 0);
    assert p.elems[0..] == p.elems;
    SerializeCollectionOf(v, p.elems);
  }

  /** Entries whose values each serialise as listed are produced again, in their order. */
  lemma {:induction false} NamedFromEntries(v: Value, entries: seq<(string, Plain)>, from: nat)
    requires (v.Tmpl? || v.Dict?) && from <= |entries|
    requires forall i | 0 <= i < |entries| ::
               entries[i].0 in Members(v) && Serialize(Members(v)[entries[i].0]) == Ok(entries[i].1)
    ensures SerializeNamed(v, Keys(entries)[from..]) == Ok(entries[from..])
    decreases |entries| - from
  {
    var names := Keys(entries)[from..];
    if from < |entries| {
      NamedFromEntries(v, entries, from + 1);
      assert names[1..] == Keys(entries)[from + 1..];
      NamedCons(v, names, entries[from].1, entries[from + 1..]);
      assert [(names[0], entries[from].1)] + entries[from + 1..] == entries[from..];
    } else {
      assert names == [] && entries[from..] == [];
    }
  }

  /** Elements that each serialise as listed are produced again, in their order. */
  lemma {:induction false} ElemsFromParts(v: Value, ps: seq<Plain>, from: nat)
    requires (v.List? || v.Tuple? || v.Set?) && |v.elems| == |ps| && from <= |ps|
    requires forall i | 0 <= i < |ps| :: Serialize(v.elems[i]) == Ok(ps[i])
    ensures SerializeElems(v, from) == Ok(ps[from..])
    decreases |ps| - from
  {
    if from < |ps| {
      ElemsFromParts(v, ps, from + 1);
      ElemsCons(v, from, ps[from], ps[from + 1..]);
      assert [ps[from]] + ps[from + 1..] == ps[from..];
    } else {
      assert ps[from..] == [];
    }
  }

  lemma EmbedElems(p: Plain)
    requires p.PList? || p.PTuple? || p.PSet?
    ensures Embed(p).List? || Embed(p).Tuple? || Embed(p).Set?
    ensures (p.PList? ==> Embed(p).List?) && (p.PTuple? ==> Embed(p).Tuple?) && (p.PSet? ==> Embed(p).Set?)
    ensures |Embed(p).elems| == |p.elems|
    ensures forall i | 0 <= i < |p.elems| :: Embed(p).elems[i] == Embed(p.elems[i])
  {
  }

  lemma ElemsCons(v: Value, from: nat, x: Plain, xs: seq<Plain>)
    requires (v.List? || v.Tuple? || v.Set?) && from < |v.elems|
    requires Serialize(v.elems[from]) == Ok(x) && SerializeElems(v, from + 1) == Ok(xs)
    ensures SerializeElems(v, from) == Ok([x] + xs)
  {
  }

  /** Reserialising the output of a well-formed value gives the same output. */
  lemma SerializeIdempotent(v: Value)
    requires ValidValue(v) && Serialize(v).Ok?
    ensures Serialize(Embed(Serialize(v).value)) == Serialize(v)
  {
    SerializeCanonical(v);
    ReserializeIsIdentity(Serialize(v).value);
  }

  lemma NamedCons(v: Value, names: seq<string>, x: Plain, rest: seq<(string, Plain)>)
    requires (v.Tmpl? || v.Dict?) && names != [] && names[0] in Members(v)
    requires Serialize(Members(v)[names[0]]) == Ok(x) && SerializeNamed(v, names[1..]) == Ok(rest)
    ensures SerializeNamed(v, names) == Ok([(names[0], x)] + rest)
  {
  }

  /** A template or dictionary with one entry serialises to a one-entry dictionary. */
  lemma SerializeSingleton(k: string, val: Value, x: Plain)
    requires Serialize(val) == Ok(x)
    ensures Serialize(Tmpl(Template([k], map[k := val]))) == Ok(PDict([(k, x)]))
    ensures Serialize(Dict([k], map[k := val])) == Ok(PDict([(k, x)]))
  {
    SingletonTemplate(k, val, x);
    SingletonDict(k, val, x);
  }

  lemma SingletonTemplate(k: string, val: Value, x: Plain)
    requires Serialize(val) == Ok(x)
    ensures Serialize(Tmpl(Template([k], map[k := val]))) == Ok(PDict([(k, x)]))
  {
    var v := Tmpl(Template([k], map[k := val]));
    assert Sort([k]) == [k] by { SortSorted([k]); }
    SingletonNamed(v, k, x);
    assert SerializeNamed(v, Sort(v.t.fields)) == Ok([(k, x)]);
  }

  lemma SingletonDict(k: string, val: Value, x: Plain)
    requires Serialize(val) == Ok(x)
    ensures Serialize(Dict([k], map[k := val])) == Ok(PDict([(k, x)]))
  {
    var v := Dict([k], map[k := val]);
    assert Sort([k]) == [k] by { SortSorted([k]); }
    SingletonNamed(v, k, x);
    assert SerializeNamed(v, Sort(v.keys)) == Ok([(k, x)]);
  }

  lemma SingletonNamed(v: Value, k: string, x: Plain)
    requires (v.Tmpl? || v.Dict?) && k in Members(v) && Serialize(Members(v)[k]) == Ok(x)
    ensures SerializeNamed(v, [k]) == Ok([(k, x)])
  {
    var one := [k];
    assert one[1..] == [];
    assert SerializeNamed(v, []) == Ok([]);
    NamedCons(v, one, x, []);
    assert [(k, x)] + [] == [(k, x)];
  }

  /** test_template.py:66-72: templates become dictionaries in sorted field order. */
  lemma SerializeTemplateExamples()
    ensures Serialize(Tmpl(Empty)) == Ok(PDict([]))
    ensures Serialize(Tmpl(Template(["a", "b"], map["a" := Int(1), "b" := Str("value")])))
            == Ok(PDict([("a", PInt(1)), ("b", PStr("value"))]))
    ensures Serialize(Tmpl(Template(["b", "a"], map["a" := Int(1), "b" := Str("value")])))
            == Ok(PDict([("a", PInt(1)), ("b", PStr("value"))]))
  {
    var t := Template(["a", "b"], map["a" := Int(1), "b" := Str("value")]);
    assert Serialize(Tmpl(t)) == Ok(PDict([("a", PInt(1)), ("b", PStr("value"))])) by {
      SerializePair(t, PInt(1), PStr("value"));
    }
    SerializeIgnoresFieldOrder(t, Template(["b", "a"], t.attrs));
  }

  /** test_template.py:68-72: a nested template becomes a nested dictionary. */
  lemma SerializeNestedExample()
    ensures Serialize(Tmpl(Template(["a", "b"], map["a" := Int(1), "b" := Tmpl(Template(["c"], map["c" := Str("value")]))])))
            == Ok(PDict([("a", PInt(1)), ("b", PDict([("c", PStr("value"))]))]))
  {
    var c := Tmpl(Template(["c"], map["c" := Str("value")]));
    var pc := PDict([("c", PStr("value"))]);
    assert Serialize(c) == Ok(pc) by {
      SingletonTemplate("c", Str("value"), PStr("value"));
    }
    SerializePair(Template(["a", "b"], map["a" := Int(1), "b" := c]), PInt(1), pc);
  }

  /** A template with two fields in sorted order serialises to the two entries. */
  lemma SerializePair(t: Template, x: Plain, y: Plain)
    requires |t.fields| == 2 && Below(t.fields[0], t.fields[1])
    requires t.fields[0] in t.attrs && Serialize(t.attrs[t.fields[0]]) == Ok(x)
    requires t.fields[1] in t.attrs && Serialize(t.attrs[t.fields[1]]) == Ok(y)
    ensures Serialize(Tmpl(t)) == Ok(PDict([(t.fields[0], x), (t.fields[1], y)]))
  {
    var ab := t.fields;
    assert Sort(ab) == ab by {
      assert Sorted(ab);
      SortSorted(ab);
    }
    var v := Tmpl(t);
    assert SerializeNamed(v, ab[1..]) == Ok([(ab[1], y)]) by {
      assert ab[1..] == [ab[1]];
      SingletonNamed(v, ab[1], y);
    }
    NamedCons(v, ab, x, [(ab[1], y)]);
    assert [(ab[0], x)] + [(ab[1], y)] == [(ab[0], x), (ab[1], y)];
  }

  /** test_template.py:73-78, 91-93: scalars and None pass through; another object fails. */
  lemma SerializeScalarExamples(token: nat)
    ensures Serialize(Null) == Ok(PNull)
    ensures Serialize(Bool(true)) == Ok(PBool(true))
    ensures Serialize(Int(42)) == Ok(PInt(42))
    ensures Serialize(Float(token)) == Ok(PFloat(token))
    ensures Serialize(Str("value")) == Ok(PStr("value"))
    ensures Serialize(Bytes([118, 97, 108, 117, 101])) == Ok(PBytes([118, 97, 108, 117, 101]))
    ensures Serialize(Object(0)) == Err(CannotSerialize(Object(0)))
  {
  }

  /** test_template.py:79-84: collections keep their kind, dictionaries are rebuilt. */
  lemma SerializeCollectionExamples()
    ensures Serialize(List([Int(1), Str("b")])) == Ok(PList([PInt(1), PStr("b")]))
    ensures Serialize(Set([Int(1), Str("b")])) == Ok(PSet([PInt(1), PStr("b")]))
    ensures Serialize(Tuple([Int(1), Str("b")])) == Ok(PTuple([PInt(1), PStr("b")]))
    ensures Serialize(Dict(["a"], map["a" := Int(2)])) == Ok(PDict([("a", PInt(2))]))
  {
    PairElems(List([Int(1), Str("b")]), PInt(1), PStr("b"));
    PairElems(Set([Int(1), Str("b")]), PInt(1), PStr("b"));
    PairElems(Tuple([Int(1), Str("b")]), PInt(1), PStr("b"));
    SingletonDict("a", Int(2), PInt(2));
  }

  /** test_template.py:83-84: templates inside collections are serialised too. */
  lemma SerializeNestedCollectionExample()
    ensures Serialize(List([Int(1), Dict(["b"], map["b" := Tmpl(Template(["c"], map["c" := Int(3)]))])]))
            == Ok(PList([PInt(1), PDict([("b", PDict([("c", PInt(3))]))])]))
  {
    var c3 := Tmpl(Template(["c"], map["c" := Int(3)]));
    var inner := Dict(["b"], map["b" := c3]);
    var p := PDict([("b", PDict([("c", PInt(3))]))]);
    assert Serialize(inner) == Ok(p) by {
      SingletonTemplate("c", Int(3), PInt(3));
      SingletonDict("b", c3, PDict([("c", PInt(3))]));
    }
    PairElems(List([Int(1), inner]), PInt(1), p);
    SerializeCollectionOf(List([Int(1), inner]), [PInt(1), p]);
  }

  lemma SerializeCollectionOf(v: Value, ps: seq<Plain>)
    requires (v.List? || v.Tuple? || v.Set?) && SerializeElems(v, 0) == Ok(ps)
    ensures v.List? ==> Serialize(v) == Ok(PList(ps))
    ensures v.Tuple? ==> Serialize(v) == Ok(PTuple(ps))
    ensures v.Set? ==> Serialize(v) == Ok(PSet(ps))
  {
  }

  lemma PairElems(v: Value, x: Plain, y: Plain)
    requires (v.List? || v.Tuple? || v.Set?) && |v.elems| == 2
    requires Serialize(v.elems[0]) == Ok(x) && Serialize(v.elems[1]) == Ok(y)
    ensures SerializeElems(v, 0) == Ok([x, y])
  {
    assert SerializeElems(v, 2) == Ok([]);
    ElemsCons(v, 1, y, []);
    assert [y] + [] == [y];
    ElemsCons(v, 0, x, [y]);
    assert [x] + [y] == [x, y];
  }
}
