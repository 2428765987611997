/**
  The typed property layer (`CompStoreObj`) over the untyped backing store
  (`QSettings`). The store is one mutable map from slash-separated keys to
  values, shared by every settings object; the primitives `store`, `clear`,
  `load` and `getset` are methods of that store taking the calling object's
  `settingsPath()`, and the `PROPERTY4` setter rule is stated once, on a
  property descriptor, as `StoreOrOmit`.
*/
module CompStore {

  import opened Values
  import opened Paths

  type Store = map<string, Value>

  /** One `PROPERTY4(type, name, key, dflt)` declaration: key (relative to the owner's path), type and default. */
  datatype Property = Property(key: string, ty: Ty, dflt: Value)

  predicate WellTyped(p: Property)
  {
    HasType(p.dflt, p.ty)
  }

  /** `QSettings::value(path, def)`. */
  function ValueOr(m: Store, path: string, def: Value): Value
  {
    if path in m then m[path] else def
  }

  /**
    What `load(dest, key, def)` leaves in `dest`: the stored value (or `def`
    when the key is absent) converted to the requested type, or the previous
    `dest` when that value does not convert.
  */
  function LoadValue(m: Store, path: string, def: Value, ty: Ty, dest: Value): (r: Value)
    ensures HasType(def, ty) && HasType(dest, ty) ==> HasType(r, ty)
    ensures path !in m && HasType(def, ty) ==> r == def
    ensures path in m && HasType(m[path], ty) ==> r == m[path]
    ensures !CanConvert(ValueOr(m, path, def), ty) ==> r == dest
  {
    var v := ValueOr(m, path, def);
    if CanConvert(v, ty) then ConvertTo(v, ty) else dest
  }

  /**
    The storage effect of a `PROPERTY4` setter called with `store == true`:
    a value equal to the default removes the key, any other value is written.
  */
  function StoreOrOmit(m: Store, path: string, dflt: Value, v: Value): (r: Store)
    ensures path in r <==> v != dflt
    ensures path in r ==> r[path] == v
    ensures forall k :: !UnderPath(k, path) ==> (k in r <==> k in m) && (k in r ==> r[k] == m[k])
  {
    UnderItself(path);
    if v == dflt then RemoveTree(m, path) else m[path := v]
  }

  /** Default-omission law: whatever a setter stores, loading the property back yields the value set. */
  lemma SetterReadBack(m: Store, path: string, p: Property, v: Value, prev: Value)
    requires WellTyped(p) && HasType(v, p.ty)
    ensures LoadValue(StoreOrOmit(m, path, p.dflt, v), path, p.dflt, p.ty, prev) == v
  {
  }

  /** Loading into the result of the same load changes nothing. */
  lemma LoadValueIdempotent(m: Store, path: string, def: Value, ty: Ty, dest: Value)
    ensures var r := LoadValue(m, path, def, ty, dest);
            LoadValue(m, path, def, ty, r) == r
  {
  }

  /** `load` after `getset` reads back exactly what `getset` stored. */
  lemma GetSetStable(m: Store, path: string, def: Value, ty: Ty, dest: Value, again: Value)
    requires HasType(def, ty) && HasType(dest, ty)
    ensures var r := LoadValue(m, path, def, ty, dest);
            LoadValue(m[path := r], path, def, ty, again) == r
  {
  }

  /**
    The backing store (`QSettings m_settings`), shared by all settings
    objects of one application, with the typed primitives of `CompStoreObj`.
  */
  class SettingsStore {
    var data: Store

    constructor (initial: Store)
      ensures data == initial
    {
      data := initial;
    }

    /** `QSettings::contains(key)`: an exact key, not a group. */
    predicate Contains(key: string)
      reads this
    {
      key in data
    }

    /** `QSettings::setValue`. */
    method SetValue(key: string, v: Value)
      modifies this
      ensures data == old(data)[key := v]
    {
      data := data[key := v];
    }

    /** `QSettings::remove`: the key and everything below it. */
    method Remove(key: string)
      modifies this
      ensures data == RemoveTree(old(data), key)
    {
      data := RemoveTree(data, key);
    }

    /** `QSettings::clear`. */
    method RemoveAll()
      modifies this
      ensures data == map[]
    {
      data := map[];
    }

    /** `CompStoreObj::store(newValue, key, group)`. */
    method Store(settingsPath: string, newValue: Value, key: string, group: Option<string> := None)
      modifies this
      ensures data == old(data)[PathForKey(settingsPath, key, group) := newValue]
    {
      SetValue(PathForKey(settingsPath, key, group), newValue);
    }

    /**
      `CompStoreObj::clear(key, group)`: removes `group/key` and its subkeys
      (just `key` when the group is empty); no other key.
    */
    method Clear(key: string, group: string := "")
      modifies this
      ensures data == RemoveTree(old(data), JoinPath(group, key))
      ensures forall k :: !UnderPath(k, JoinPath(group, key)) ==>
                (k in data <==> k in old(data)) && (k in data ==> data[k] == old(data)[k])
    {
      Remove(JoinPath(group, key));
    }

    /** `CompStoreObj::load(dest, key, def, group)`: returns the new `dest`; the store is not modified. */
    method Load(settingsPath: string, dest: Value, key: string, def: Value, ty: Ty, group: Option<string> := None)
      returns (r: Value)
      ensures r == LoadValue(data, PathForKey(settingsPath, key, group), def, ty, dest)
    {
      var v := if Contains(PathForKey(settingsPath, key, group)) then data[PathForKey(settingsPath, key, group)] else def;
      if CanConvert(v, ty) {
        r := ConvertTo(v, ty);
      } else {
        r := dest;
      }
    }

    /** `CompStoreObj::getset`: `load` then `store`, so the store then holds exactly the loaded value. */
    method GetSet(settingsPath: string, dest: Value, key: string, def: Value, ty: Ty, group: Option<string> := None)
      returns (r: Value)
      modifies this
      ensures r == LoadValue(old(data), PathForKey(settingsPath, key, group), def, ty, dest)
      ensures data == old(data)[PathForKey(settingsPath, key, group) := r]
    {
      r := Load(settingsPath, dest, key, def, ty, group);
      Store(settingsPath, r, key, group);
    }

    /**
      The storage half of a `PROPERTY4` setter with `store == true`: clear
      the key when the value equals the default, otherwise store it.
    */
    method StoreProperty(settingsPath: string, p: Property, v: Value)
      modifies this
      ensures data == StoreOrOmit(old(data), JoinPath(settingsPath, p.key), p.dflt, v)
    {
      if v == p.dflt {
        Clear(p.key, settingsPath);
      } else {
        Store(settingsPath, v, p.key);
      }
    }
  }
}
