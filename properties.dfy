/**
  A settings object declares its properties as a list of `PROPERTY4` fields,
  and its bulk operations (`init`, `reset`, `resetFwVariables`, `operator=`)
  call the per-field `_init()` or setter of a list of those fields in a fixed
  order. This module states the effect of such a sequence of calls once, for
  any field type `F` described by a function `prop` from fields to property
  descriptors, and proves what it leaves in each field and in the store.
*/
module PropertyLists {

  import opened Values
  import opened Paths
  import opened CompStore

  /**
    The fields of `order` have keys that are single non-empty path
    components, different fields have different keys, and `dir` is a
    directory (empty, or ending in '/'): the layout of every settings object.
  */
  predicate SeparateKeys<F(==,!new)>(dir: string, prop: F -> Property, order: seq<F>)
  {
    && (dir == "" || EndsWithSlash(dir))
    && (forall f :: f in order ==> prop(f).key != "" && '/' !in prop(f).key)
    && (forall f, g :: f in order && g in order && f != g ==> prop(f).key != prop(g).key)
  }

  /** The in-memory value of field `f`, or `def` when the object holds none. */
  function Lookup<F(==,!new)>(vals: map<F, Value>, f: F, def: Value): Value
  {
    if f in vals then vals[f] else def
  }

  /** The full settings key of field `f` of an object whose settings path is `dir`. */
  function FieldPath<F(==,!new)>(dir: string, prop: F -> Property, f: F): string
  {
    JoinPath(dir, prop(f).key)
  }

  /** The field values after the `_init()` of each field of `order`, in order. */
  function LoadFields<F(==,!new)>(m: Store, dir: string, prop: F -> Property, order: seq<F>, prev: map<F, Value>): (r: map<F, Value>)
    ensures forall f :: f in r <==> f in prev || f in order
  {
    if order == [] then prev
    else
      var f := order[|order| - 1];
      var r := LoadFields(m, dir, prop, order[..|order| - 1], prev);
      assert forall g :: g in order <==> g in order[..|order| - 1] || g == f;
      r[f := LoadValue(m, FieldPath(dir, prop, f), prop(f).dflt, prop(f).ty, Lookup(r, f, prop(f).dflt))]
  }

  /**
    The field values after calling the setter of each field of `order` with
    its value in `src`; a field `src` does not hold is set to its default, so
    `src == map[]` describes a sequence of `<name>Reset()` calls.
  */
  function SetFields<F(==,!new)>(vals: map<F, Value>, prop: F -> Property, order: seq<F>, src: map<F, Value>): (r: map<F, Value>)
    ensures forall f :: f in r <==> f in vals || f in order
  {
    if order == [] then vals
    else
      var f := order[|order| - 1];
      var r := SetFields(vals, prop, order[..|order| - 1], src);
      assert forall g :: g in order <==> g in order[..|order| - 1] || g == f;
      r[f := Lookup(src, f, prop(f).dflt)]
  }

  /** The store after the same sequence of setter calls, each with `store == true`. */
  function StoreFields<F(==,!new)>(m: Store, dir: string, prop: F -> Property, order: seq<F>, src: map<F, Value>): Store
  {
    if order == [] then m
    else
      var f := order[|order| - 1];
      StoreOrOmit(StoreFields(m, dir, prop, order[..|order| - 1], src), FieldPath(dir, prop, f), prop(f).dflt, Lookup(src, f, prop(f).dflt))
  }

  /**
    After the `_init()` calls each listed field holds what its own key
    loads to, starting from the value it had before; any other field keeps
    its value.
  */
  lemma {:induction false} LoadFieldsAt<F(!new)>(m: Store, dir: string, prop: F -> Property, order: seq<F>, prev: map<F, Value>, f: F)
    ensures f in order ==>
              LoadFields(m, dir, prop, order, prev)[f]
              == LoadValue(m, FieldPath(dir, prop, f), prop(f).dflt, prop(f).ty, Lookup(prev, f, prop(f).dflt))
    ensures f !in order && f in prev ==> LoadFields(m, dir, prop, order, prev)[f] == prev[f]
  {
    if order != [] {
      var init := order[..|order| - 1];
      LoadFieldsAt(m, dir, prop, init, prev, f);
      if f == order[|order| - 1] && f in init {
        // a field loaded twice: the second load changes nothing
        LoadValueIdempotent(m, FieldPath(dir, prop, f), prop(f).dflt, prop(f).ty, Lookup(prev, f, prop(f).dflt));
      }
      assert f in order && f != order[|order| - 1] ==> f in init;
    }
  }

  /** After the setter calls each listed field holds its value in `src` (or its default); any other field keeps its value. */
  lemma {:induction false} SetFieldsAt<F(!new)>(vals: map<F, Value>, prop: F -> Property, order: seq<F>, src: map<F, Value>, f: F)
    ensures f in order ==> SetFields(vals, prop, order, src)[f] == Lookup(src, f, prop(f).dflt)
    ensures f !in order && f in vals ==> SetFields(vals, prop, order, src)[f] == vals[f]
  {
    if order != [] {
      var init := order[..|order| - 1];
      SetFieldsAt(vals, prop, init, src, f);
      assert f in order && f != order[|order| - 1] ==> f in init;
    }
  }

  /**
    The default-omission law for a whole list: after the setter calls the key
    of a listed field is present exactly when the value set differs from the
    default, and then holds that value.
  */
  lemma {:induction false} StoreFieldsAt<F(!new)>(m: Store, dir: string, prop: F -> Property, order: seq<F>, src: map<F, Value>, f: F)
    requires SeparateKeys(dir, prop, order) && f in order
    ensures var r := StoreFields(m, dir, prop, order, src);
            var v := Lookup(src, f, prop(f).dflt);
            (FieldPath(dir, prop, f) in r <==> v != prop(f).dflt)
            && (FieldPath(dir, prop, f) in r ==> r[FieldPath(dir, prop, f)] == v)
  {
    var g := order[|order| - 1];
    var init := order[..|order| - 1];
    if f != g {
      assert f in init && g in order;
      assert SeparateKeys(dir, prop, init);
      StoreFieldsAt(m, dir, prop, init, src, f);
      SiblingsDisjoint(dir, prop(f).key, prop(g).key);
    }
  }

  /** The setter calls touch no key outside the removal scopes of the listed fields' keys. */
  lemma {:induction false} StoreFieldsFrame<F(!new)>(m: Store, dir: string, prop: F -> Property, order: seq<F>, src: map<F, Value>, k: string)
    requires forall f :: f in order ==> !UnderPath(k, FieldPath(dir, prop, f))
    ensures var r := StoreFields(m, dir, prop, order, src);
            (k in r <==> k in m) && (k in r ==> r[k] == m[k])
  {
    if order != [] {
      StoreFieldsFrame(m, dir, prop, order[..|order| - 1], src, k);
      assert order[|order| - 1] in order;
    }
  }
}
