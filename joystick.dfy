/**
  `JStickData`: the calibration of one joystick axis, five int properties
  stored flat under `JsCalibration/` with keys `stick<N>_axe`, `_min`,
  `_med`, `_max` and `_inv`, N being the joystick's index.
*/
module Joysticks {

  import opened Values
  import opened Paths
  import opened CompStore
  import opened PropertyLists

  const MAX_JOYSTICKS := 8

  /** `JStickData::settingsPath()`. */
  const SettingsPath := "JsCalibration/"

  datatype Field = Axe | Min | Med | Max | Inv

  /** The order of `JStickData::init` and of `JStickData::reset`. */
  const Fields: seq<Field> := [Axe, Min, Med, Max, Inv]

  /** The position of `f` in `Fields`. */
  function Position(f: Field): (n: nat)
    ensures n < |Fields| && Fields[n] == f
  {
    match f
    case Axe => 0
    case Min => 1
    case Med => 2
    case Max => 3
    case Inv => 4
  }

  lemma FieldsComplete()
    ensures forall f :: f in Fields
  {
    forall f ensures f in Fields {
      assert Fields[Position(f)] == f;
    }
  }

  function Suffix(f: Field): string
  {
    match f
    case Axe => "_axe"
    case Min => "_min"
    case Med => "_med"
    case Max => "_max"
    case Inv => "_inv"
  }

  function DefaultOf(f: Field): int
  {
    match f
    case Axe => -1
    case Min => -32767
    case Med => 0
    case Max => 32767
    case Inv => 0
  }

  /** The descriptor of property `f` of joystick `index`: its key depends on the index. */
  function Prop(index: int, f: Field): (p: Property)
    ensures WellTyped(p) && p.ty == TInt && p.key != "" && '/' !in p.key
  {
    Property("stick" + IntToString(index) + Suffix(f), TInt, Int(DefaultOf(f)))
  }

  /** The descriptors of joystick `index`, as one function of the field. */
  function PropOf(index: int): Field -> Property
  {
    f => Prop(index, f)
  }

  /** The full settings key of property `f` of joystick `index`. */
  function KeyPath(index: int, f: Field): string
  {
    FieldPath(SettingsPath, PropOf(index), f)
  }

  /** `existsOnDisk()`: the axis value, read with default -1, is an int above -1. */
  predicate Exists(m: Store, index: int)
  {
    ToInt(ValueOr(m, KeyPath(index, Axe), Int(DefaultOf(Axe)))) > -1
  }

  /** Two different (index, property) pairs never name the same key, nor one below the other. */
  lemma KeysDisjoint(i: int, f: Field, j: int, g: Field)
    requires i != j || f != g
    ensures !UnderPath(KeyPath(i, f), KeyPath(j, g))
  {
    var k1, k2 := Prop(i, f).key, Prop(j, g).key;
    if k1 == k2 {
      var s, t := IntToString(i), IntToString(j);
      assert k1 == "stick" + s + Suffix(f) && k2 == "stick" + t + Suffix(g);
      assert |Suffix(f)| == 4 && |Suffix(g)| == 4;
      assert Suffix(f) == k1[|k1| - 4..] && Suffix(g) == k2[|k2| - 4..];
      assert s == k1[5..|k1| - 4] && t == k2[5..|k2| - 4];
      IntToStringInjective(i, j);
    } else {
      SiblingsDisjoint(SettingsPath, k1, k2);
    }
  }

  /** Storing axis value `v` makes the joystick exist on disk exactly when `v` is not negative. */
  lemma ExistsAfterSetAxe(m: Store, index: int, v: int)
    ensures Exists(StoreOrOmit(m, KeyPath(index, Axe), Int(DefaultOf(Axe)), Int(v)), index) <==> v > -1
  {
  }

  /** The five keys of one joystick satisfy the layout every settings object relies on. */
  lemma KeysSeparate(index: int)
    ensures SeparateKeys(SettingsPath, PropOf(index), Fields)
  {
    forall f, g | f != g ensures Prop(index, f).key != Prop(index, g).key {
      KeysDisjoint(index, f, index, g);
      UnderItself(KeyPath(index, g));
    }
  }

  /**
    What `reset()` leaves: every property at its default, none of the five
    keys in the store (so the joystick no longer exists on disk), and every
    other key as it was.
  */
  lemma ResetEffect(m: Store, vals: map<Field, Value>, index: int)
    ensures forall f :: f in SetFields(vals, PropOf(index), Fields, map[])
                        && SetFields(vals, PropOf(index), Fields, map[])[f] == Int(DefaultOf(f))
    ensures forall f :: KeyPath(index, f) !in StoreFields(m, SettingsPath, PropOf(index), Fields, map[])
    ensures !Exists(StoreFields(m, SettingsPath, PropOf(index), Fields, map[]), index)
    ensures forall k :: (forall f :: !UnderPath(k, KeyPath(index, f))) ==>
              var r := StoreFields(m, SettingsPath, PropOf(index), Fields, map[]);
              (k in r <==> k in m) && (k in r ==> r[k] == m[k])
  {
    KeysSeparate(index);
    FieldsComplete();
    forall f ensures f in SetFields(vals, PropOf(index), Fields, map[])
                  && SetFields(vals, PropOf(index), Fields, map[])[f] == Int(DefaultOf(f))
                  && KeyPath(index, f) !in StoreFields(m, SettingsPath, PropOf(index), Fields, map[]) {
      SetFieldsAt(vals, PropOf(index), Fields, map[], f);
      StoreFieldsAt(m, SettingsPath, PropOf(index), Fields, map[], f);
    }
    forall k | forall f :: !UnderPath(k, KeyPath(index, f))
      ensures var r := StoreFields(m, SettingsPath, PropOf(index), Fields, map[]);
              (k in r <==> k in m) && (k in r ==> r[k] == m[k])
    {
      StoreFieldsFrame(m, SettingsPath, PropOf(index), Fields, map[], k);
    }
  }

  /** After `init` each property of joystick `index` holds what its own key loads to. */
  lemma LoadedValues(m: Store, index: int, prev: map<Field, Value>)
    requires forall f :: f in prev
    ensures forall f :: LoadFields(m, SettingsPath, PropOf(index), Fields, prev)[f]
                        == LoadValue(m, KeyPath(index, f), Int(DefaultOf(f)), TInt, prev[f])
  {
    FieldsComplete();
    forall f ensures LoadFields(m, SettingsPath, PropOf(index), Fields, prev)[f]
                     == LoadValue(m, KeyPath(index, f), Int(DefaultOf(f)), TInt, prev[f]) {
      LoadFieldsAt(m, SettingsPath, PropOf(index), Fields, prev, f);
    }
  }

  /** Loading a joystick from a store it was just reset in gives every property its default. */
  lemma InitAfterReset(m: Store, index: int, prev: map<Field, Value>, f: Field)
    ensures var r := StoreFields(m, SettingsPath, PropOf(index), Fields, map[]);
            LoadValue(r, KeyPath(index, f), Int(DefaultOf(f)), TInt, Lookup(prev, f, Int(DefaultOf(f)))) == Int(DefaultOf(f))
  {
    ResetEffect(m, map[], index);
  }

  class JStickData {
    const settings: SettingsStore
    var index: int
    var vals: map<Field, Value>

    ghost predicate Valid()
      reads this
    {
      forall f :: f in vals && HasType(vals[f], TInt)
    }

    /** `JStickData()`: index -1; the properties are not initialised, so each holds 0. */
    constructor (settings: SettingsStore)
      ensures Valid() && this.settings == settings && index == -1
      ensures forall f :: vals[f] == Int(0)
    {
      this.settings := settings;
      index := -1;
      vals := map f | f in Fields :: Int(0);
      FieldsComplete();
    }

    /** The getter of property `f`. */
    function Get(f: Field): int
      requires Valid()
      reads this
    {
      vals[f].i
    }

    /** The `PROPERTY4` setter of property `f`. */
    method Set(f: Field, val: int, store: bool := true)
      requires Valid()
      modifies this, settings
      ensures Valid() && index == old(index) && vals == old(vals)[f := Int(val)]
      ensures settings.data == if store then StoreOrOmit(old(settings.data), KeyPath(index, f), Int(DefaultOf(f)), Int(val))
                               else old(settings.data)
    {
      vals := vals[f := Int(val)];
      if store {
        settings.StoreProperty(SettingsPath, Prop(index, f), Int(val));
      }
    }

    /** `<name>Reset(store)`: set property `f` back to its default. */
    method ResetField(f: Field, store: bool := true)
      requires Valid()
      modifies this, settings
      ensures Valid() && index == old(index) && vals == old(vals)[f := Int(DefaultOf(f))]
      ensures settings.data == if store then RemoveTree(old(settings.data), KeyPath(index, f)) else old(settings.data)
    {
      Set(f, DefaultOf(f), store);
    }

    /** `<name>_init()`: load property `f` from the store, keeping the old value on a type mismatch. */
    method InitField(f: Field)
      requires Valid()
      modifies this
      ensures Valid() && index == old(index)
      ensures vals == old(vals)[f := LoadValue(settings.data, KeyPath(index, f), Int(DefaultOf(f)), TInt, old(vals)[f])]
    {
      var v := settings.Load(SettingsPath, vals[f], Prop(index, f).key, Int(DefaultOf(f)), TInt);
      vals := vals[f := v];
    }

    /** `JStickData::init(newIndex)`: each property loaded from its key under the new index. */
    method Init(newIndex: int)
      requires Valid()
      modifies this
      ensures Valid() && index == newIndex
      ensures vals == LoadFields(settings.data, SettingsPath, PropOf(newIndex), Fields, old(vals))
      ensures forall f :: vals[f] == LoadValue(settings.data, KeyPath(newIndex, f), Int(DefaultOf(f)), TInt, old(vals)[f])
    {
      index := newIndex;
      for n := 0 to |Fields|
        invariant Valid() && index == newIndex
        invariant vals == LoadFields(settings.data, SettingsPath, PropOf(newIndex), Fields[..n], old(vals))
      {
        assert Fields[..n + 1][..n] == Fields[..n];
        InitField(Fields[n]);
      }
      assert Fields[..|Fields|] == Fields;
      LoadedValues(settings.data, newIndex, old(vals));
    }

    /** `JStickData::reset()`: every property back to its default, its five keys removed and no other key touched. */
    method Reset()
      requires Valid()
      modifies this, settings
      ensures Valid() && index == old(index)
      ensures vals == SetFields(old(vals), PropOf(index), Fields, map[])
      ensures settings.data == StoreFields(old(settings.data), SettingsPath, PropOf(index), Fields, map[])
    {
      for n := 0 to |Fields|
        invariant Valid() && index == old(index)
        invariant vals == SetFields(old(vals), PropOf(index), Fields[..n], map[])
        invariant settings.data == StoreFields(old(settings.data), SettingsPath, PropOf(index), Fields[..n], map[])
      {
        assert Fields[..n + 1][..n] == Fields[..n];
        ResetField(Fields[n]);
      }
      assert Fields[..|Fields|] == Fields;
    }

    /** `JStickData::existsOnDisk()`. */
    method ExistsOnDisk() returns (b: bool)
      ensures b == Exists(settings.data, index)
    {
      var path := SettingsPath + Prop(index, Axe).key;
      var v := if settings.Contains(path) then settings.data[path] else Int(-1);
      b := ToInt(v) > -1;
    }
  }
}
