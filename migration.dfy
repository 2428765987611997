/**
  Settings migration: `AppData::convertSettings`, which rewrites keys of
  older releases in place; the version marker written by `AppData::init`;
  the search for the settings of a previous product
  (`findPreviousVersionSettings`) and the key filter of `importSettings`.
  Each is a function of stores; the `AppData` methods are proved against
  them.
*/
module Migration {

  import opened Values
  import opened Paths
  import opened CompStore
  import opened Globals

  /** `AppData::settingsVersionKey`: present exactly when a store holds settings of this version. */
  const SettingsVersionKey := "settings_version"

  /** The marker value `init` writes into a store that has none. */
  const SettingsVersion := "220"

  /** `deprecatedSettings()`: keys removed entirely. */
  const Deprecated: seq<string> :=
    ["avrdude_location", "last_simulator", "companionBranch", "useCompanionNightlyBuilds", "useFirmwareNightlyBuilds"]

  /** The key of an older release that `newModelAction` replaced. */
  const UseWizardKey := "useWizard"

  /** The settings keys of the two global properties `convertSettings` writes. */
  const NewModelActionKey := "newModelAction"
  const WarningIdKey := "warningId"

  // ---------------------------------------------------------------------------
  // convertSettings

  /** The `newModelAction` an old `useWizard` value stands for: wizard (1) when true, editor (2) otherwise. */
  function WizardAction(useWizard: Value): (r: Value)
    ensures r == Int(1) <==> ToBool(useWizard)
    ensures r == Int(2) <==> !ToBool(useWizard)
  {
    Int(if ToBool(useWizard) then 1 else 2)
  }

  /**
    The first step: a `useWizard` key is replaced by the `newModelAction`
    setter (default omission included) unless `newModelAction` is already
    set, and removed.
  */
  function WizardStore(m: Store): Store
  {
    if UseWizardKey in m then
      var n := if NewModelActionKey in m then m
               else StoreOrOmit(m, NewModelActionKey, GProp(NewModelAction).dflt, WizardAction(m[UseWizardKey]));
      RemoveTree(n, UseWizardKey)
    else m
  }

  /** A `warningId` of 7 has the meaning it had before version 2.2. */
  predicate OldWarning(m: Store)
  {
    WarningIdKey in m && ToInt(m[WarningIdKey]) == 7
  }

  /** The second step: `warningIdReset()` on an old warning id, which omits the key it resets to the default. */
  function WarningStore(m: Store): Store
  {
    if OldWarning(m) then RemoveTree(m, WarningIdKey) else m
  }

  /** The store after `convertSettings`: both steps, then the deprecated keys removed. */
  function ConvertedStore(m: Store): Store
  {
    RemoveTrees(WarningStore(WizardStore(m)), Deprecated)
  }

  /** The in-memory global properties after `convertSettings`: the setters of the two steps. */
  function ConvertedVals(m: Store, vals: map<Global, Value>): map<Global, Value>
  {
    var v := if UseWizardKey in m && NewModelActionKey !in m
             then vals[NewModelAction := WizardAction(m[UseWizardKey])] else vals;
    if OldWarning(WizardStore(m)) then v[WarningId := GProp(WarningId).dflt] else v
  }

  /** A store `convertSettings` has nothing left to do on. */
  predicate Converted(m: Store)
  {
    && UseWizardKey !in m
    && !OldWarning(m)
    && forall k :: k in m ==> !UnderAny(k, Deprecated)
  }

  /** Each deprecated key is a plain key starting with one of 'a', 'l', 'c' or 'u'. */
  lemma DeprecatedShape()
    ensures forall j :: 0 <= j < |Deprecated| ==>
              Deprecated[j] != "" && !EndsWithSlash(Deprecated[j]) && Deprecated[j][0] in ['a', 'l', 'c', 'u']
  {
    forall j | 0 <= j < |Deprecated|
      ensures Deprecated[j] != "" && !EndsWithSlash(Deprecated[j]) && Deprecated[j][0] in ['a', 'l', 'c', 'u']
    {
      var d := Deprecated[j];
      assert d[0] == 'a' || d[0] == 'l' || d[0] == 'c' || d[0] == 'u';
      assert d[|d| - 1] == 'n' || d[|d| - 1] == 'r' || d[|d| - 1] == 'h' || d[|d| - 1] == 's';
    }
  }

  /** A key starting with none of the deprecated keys' first characters is outside all of their scopes. */
  lemma NotDeprecated(k: string)
    requires k != "" && k[0] !in ['a', 'l', 'c', 'u']
    ensures !UnderAny(k, Deprecated)
  {
    DeprecatedShape();
    forall j | 0 <= j < |Deprecated| ensures !UnderPath(k, Deprecated[j]) {
      DifferentStart(k, Deprecated[j]);
    }
  }

  /** None of the keys `convertSettings` and `init` write lies in the scope of another key they touch. */
  lemma KeysApart()
    ensures !UnderPath(NewModelActionKey, UseWizardKey) && !UnderPath(WarningIdKey, UseWizardKey)
    ensures !UnderPath(WarningIdKey, NewModelActionKey)
    ensures !UnderPath(SettingsVersionKey, UseWizardKey) && !UnderPath(SettingsVersionKey, NewModelActionKey)
    ensures !UnderPath(SettingsVersionKey, WarningIdKey)
    ensures !UnderAny(WarningIdKey, Deprecated) && !UnderAny(NewModelActionKey, Deprecated)
    ensures !UnderAny(SettingsVersionKey, Deprecated)
  {
    assert UseWizardKey[|UseWizardKey| - 1] == 'd' && NewModelActionKey[|NewModelActionKey| - 1] == 'n';
    assert WarningIdKey[|WarningIdKey| - 1] == 'd';
    DifferentStart(NewModelActionKey, UseWizardKey);
    DifferentStart(WarningIdKey, UseWizardKey);
    DifferentStart(WarningIdKey, NewModelActionKey);
    DifferentStart(SettingsVersionKey, UseWizardKey);
    DifferentStart(SettingsVersionKey, NewModelActionKey);
    DifferentStart(SettingsVersionKey, WarningIdKey);
    NotDeprecated(WarningIdKey);
    NotDeprecated(NewModelActionKey);
    NotDeprecated(SettingsVersionKey);
  }

  /**
    What `convertSettings` leaves: no `useWizard` key, no old warning id,
    nothing in the scope of a deprecated key.
  */
  lemma ConvertedStoreIsConverted(m: Store)
    ensures Converted(ConvertedStore(m))
  {
    var w := WizardStore(m);
    UnderItself(UseWizardKey);
    assert UseWizardKey !in w;
    UnderItself(WarningIdKey);
    KeysApart();
    var c := ConvertedStore(m);
    if WarningIdKey in c {
      assert WarningIdKey in w && c[WarningIdKey] == w[WarningIdKey];
      assert !OldWarning(w);
    }
  }

  /** On a converted store `convertSettings` changes nothing. */
  lemma ConvertFixesConverted(m: Store)
    requires Converted(m)
    ensures ConvertedStore(m) == m
  {
    assert WizardStore(m) == m;
    assert WarningStore(m) == m;
    var c := ConvertedStore(m);
    assert forall k :: k in c <==> k in m;
  }

  /** `convertSettings` is idempotent. */
  lemma ConvertIdempotent(m: Store)
    ensures ConvertedStore(ConvertedStore(m)) == ConvertedStore(m)
  {
    ConvertedStoreIsConverted(m);
    ConvertFixesConverted(ConvertedStore(m));
  }

  /** The first step, key by key: which keys it writes and which it leaves alone. */
  lemma WizardStoreAt(m: Store, k: string)
    ensures !UnderPath(k, UseWizardKey) && !UnderPath(k, NewModelActionKey) ==>
              (k in WizardStore(m) <==> k in m) && (k in m ==> WizardStore(m)[k] == m[k])
    ensures UseWizardKey in m && NewModelActionKey !in m ==>
              var v := WizardAction(m[UseWizardKey]);
              (NewModelActionKey in WizardStore(m) <==> v != GProp(NewModelAction).dflt)
              && (NewModelActionKey in WizardStore(m) ==> WizardStore(m)[NewModelActionKey] == v)
    ensures NewModelActionKey in m ==>
              NewModelActionKey in WizardStore(m) && WizardStore(m)[NewModelActionKey] == m[NewModelActionKey]
  {
    KeysApart();
  }

  /** The remaining steps leave every key outside the scopes of `warningId` and the deprecated keys as the first step left it. */
  lemma LaterStepsAt(w: Store, k: string)
    requires !UnderPath(k, WarningIdKey) && !UnderAny(k, Deprecated)
    ensures var c := RemoveTrees(WarningStore(w), Deprecated);
            (k in c <==> k in w) && (k in w ==> c[k] == w[k])
  {
  }

  /**
    An old `useWizard` without a `newModelAction` turns into the
    `newModelAction` it stands for: loading that property after the
    conversion yields 1 for a true `useWizard` and 2 otherwise.
  */
  lemma ConvertDerivesNewModelAction(m: Store, prev: Value)
    requires UseWizardKey in m && NewModelActionKey !in m
    ensures LoadValue(ConvertedStore(m), NewModelActionKey, GProp(NewModelAction).dflt, TInt, prev)
            == WizardAction(m[UseWizardKey])
  {
    KeysApart();
    ConvertedProps();
    WizardStoreAt(m, NewModelActionKey);
    LaterStepsAt(WizardStore(m), NewModelActionKey);
  }

  /** An existing `newModelAction` survives the conversion unchanged, whatever `useWizard` said. */
  lemma ConvertKeepsNewModelAction(m: Store)
    requires NewModelActionKey in m
    ensures NewModelActionKey in ConvertedStore(m)
    ensures ConvertedStore(m)[NewModelActionKey] == m[NewModelActionKey]
  {
    KeysApart();
    WizardStoreAt(m, NewModelActionKey);
    LaterStepsAt(WizardStore(m), NewModelActionKey);
  }

  /** A warning id of 7 is reset: the key is gone, so the property loads as its default 0. */
  lemma ConvertResetsOldWarning(m: Store, prev: Value)
    requires OldWarning(m)
    ensures WarningIdKey !in ConvertedStore(m)
    ensures LoadValue(ConvertedStore(m), WarningIdKey, GProp(WarningId).dflt, TInt, prev) == Int(0)
  {
    var w := WizardStore(m);
    KeysApart();
    WizardStoreAt(m, WarningIdKey);
    assert OldWarning(w);
    UnderItself(WarningIdKey);
    assert WarningIdKey !in WarningStore(w);
    ConvertedProps();
  }

  /** Any other warning id is kept as it is. */
  lemma ConvertKeepsWarning(m: Store)
    requires WarningIdKey in m && !OldWarning(m)
    ensures WarningIdKey in ConvertedStore(m) && ConvertedStore(m)[WarningIdKey] == m[WarningIdKey]
  {
    var w := WizardStore(m);
    KeysApart();
    WizardStoreAt(m, WarningIdKey);
    assert !OldWarning(w);
    assert WarningStore(w) == w;
  }

  /** Keys outside the scopes of the keys `convertSettings` touches keep their values. */
  lemma ConvertFrame(m: Store, k: string)
    requires !UnderPath(k, UseWizardKey) && !UnderPath(k, NewModelActionKey) && !UnderPath(k, WarningIdKey)
    requires !UnderAny(k, Deprecated)
    ensures k in ConvertedStore(m) <==> k in m
    ensures k in m ==> ConvertedStore(m)[k] == m[k]
  {
    WizardStoreAt(m, k);
    LaterStepsAt(WizardStore(m), k);
  }

  // ---------------------------------------------------------------------------
  // The version marker

  /**
    The store after `getset(_tempString, settingsVersionKey, "220")` with an
    empty `_tempString`: the marker is loaded as a string (an unconvertible
    value leaves the empty string) and written back.
  */
  function MarkVersion(m: Store): (r: Store)
    ensures SettingsVersionKey in r && r[SettingsVersionKey].Str?
    ensures SettingsVersionKey !in m ==> r[SettingsVersionKey] == Str(SettingsVersion)
    ensures SettingsVersionKey in m && m[SettingsVersionKey].Str? ==> r == m
    ensures forall k :: k != SettingsVersionKey ==> (k in r <==> k in m) && (k in r ==> r[k] == m[k])
  {
    m[SettingsVersionKey := LoadValue(m, SettingsVersionKey, Str(SettingsVersion), TStr, Str(""))]
  }

  /** Writing the marker into a converted store leaves it converted. */
  lemma MarkVersionKeepsConverted(m: Store)
    requires Converted(m)
    ensures Converted(MarkVersion(m))
  {
    var r := MarkVersion(m);
    KeysApart();
    forall k | k in r ensures !UnderAny(k, Deprecated) {
      if k != SettingsVersionKey {
        assert k in m;
      }
    }
  }

  /** The store after `init`'s conversion and marker. */
  function InitStore(m: Store): (r: Store)
    ensures Converted(r) && SettingsVersionKey in r
  {
    ConvertedStoreIsConverted(m);
    MarkVersionKeepsConverted(ConvertedStore(m));
    MarkVersion(ConvertedStore(m))
  }

  /** Running `init`'s store updates on a store they produced changes nothing. */
  lemma InitStoreIdempotent(m: Store)
    ensures InitStore(InitStore(m)) == InitStore(m)
  {
    var r := InitStore(m);
    ConvertFixesConverted(r);
  }

  /** `init` on an empty store leaves exactly the version marker "220". */
  lemma InitStoreOfEmpty()
    ensures InitStore(map[]) == map[SettingsVersionKey := Str(SettingsVersion)]
  {
    var c := ConvertedStore(map[]);
    assert forall k :: k !in c;
    assert c == map[];
  }

  // ---------------------------------------------------------------------------
  // Previous versions

  /** The releases `importSettings` can read, newest first: label and product name. */
  datatype Release = Companion21 | Companion20 | Companion1x

  /** The version label of a release, as `findPreviousVersionSettings` reports it and `importSettings` accepts it. */
  function Label(r: Release): string
  {
    match r
    case Companion21 => "2.1"
    case Companion20 => "2.0"
    case Companion1x => "1.x"
  }

  /** The release `importSettings(fromVersion)` reads, or `None` for any other label. */
  function ReleaseOf(fromVersion: string): (r: Option<Release>)
    ensures r.Some? ==> Label(r.value) == fromVersion
    ensures forall rel :: Label(rel) == fromVersion ==> r == Some(rel)
  {
    if fromVersion == "2.1" then Some(Companion21)
    else if fromVersion == "2.0" then Some(Companion20)
    else if fromVersion == "1.x" then Some(Companion1x)
    else None
  }

  /** A release whose store holds the version marker has settings to import. */
  predicate HasSettings(m: Store)
  {
    SettingsVersionKey in m
  }

  /** The label `findPreviousVersionSettings` reports for the three stores, newest first; empty when none. */
  function PreviousVersion(m21: Store, m20: Store, m1x: Store): string
  {
    if HasSettings(m21) then "2.1"
    else if HasSettings(m20) then "2.0"
    else if HasSettings(m1x) then "1.x"
    else ""
  }

  /** The store of release `r` among the three. */
  function StoreOf(r: Release, m21: Store, m20: Store, m1x: Store): Store
  {
    match r
    case Companion21 => m21
    case Companion20 => m20
    case Companion1x => m1x
  }

  /** A release is newer than another when it comes first in the search order. */
  predicate Newer(a: Release, b: Release)
  {
    (a.Companion21? && !b.Companion21?) || (a.Companion20? && b.Companion1x?)
  }

  /**
    The newest release with settings wins: a reported label names a release
    whose store holds the marker and that no newer store holds; an empty
    label means no store holds it.
  */
  lemma PreviousVersionIsNewest(m21: Store, m20: Store, m1x: Store)
    ensures var v := PreviousVersion(m21, m20, m1x);
            (v == "" <==> forall r :: !HasSettings(StoreOf(r, m21, m20, m1x)))
            && (v != "" ==> ReleaseOf(v).Some?
                            && HasSettings(StoreOf(ReleaseOf(v).value, m21, m20, m1x))
                            && forall r :: Newer(r, ReleaseOf(v).value) ==> !HasSettings(StoreOf(r, m21, m20, m1x)))
  {
    var v := PreviousVersion(m21, m20, m1x);
    if HasSettings(m21) {
      assert v == "2.1" && |v| == 3;
      assert ReleaseOf(v) == Some(Companion21);
      assert HasSettings(StoreOf(Companion21, m21, m20, m1x));
    } else if HasSettings(m20) {
      assert v == "2.0" && |v| == 3;
      assert ReleaseOf(v) == Some(Companion20);
      assert HasSettings(StoreOf(Companion20, m21, m20, m1x));
    } else if HasSettings(m1x) {
      assert v == "1.x" && |v| == 3;
      assert ReleaseOf(v) == Some(Companion1x);
      assert HasSettings(StoreOf(Companion1x, m21, m20, m1x));
    } else {
      forall r ensures !HasSettings(StoreOf(r, m21, m20, m1x)) {
        match r
        case Companion21 =>
        case Companion20 =>
        case Companion1x =>
      }
    }
  }

  /** The store `findPreviousVersionSettings` leaves for one release: cleared when it lacks the marker. */
  function Probed(m: Store): (r: Store)
    ensures HasSettings(m) ==> r == m
    ensures !HasSettings(m) ==> r == map[]
  {
    if HasSettings(m) then m else map[]
  }

  // ---------------------------------------------------------------------------
  // importSettings

  /** The keys `importSettings` never copies; the tool locations and install keys only on Windows. */
  function Excluded(windows: bool): seq<string>
  {
    Deprecated + ["compilation-server"]
    + (if windows then ["avrdude_location", "avrdudeLocation", "dfu_location", "Start Menu Folder", "."] else [])
  }

  /** Key `k` of the source store is copied: it holds a valid value and is not excluded (an exact, case-sensitive match). */
  predicate Importable(src: Store, k: string, windows: bool)
  {
    k in src && src[k] != Invalid && k !in Excluded(windows)
  }

  /** The destination after copying the importable keys among `ks`. */
  function ImportKeys(m: Store, src: Store, ks: set<string>, windows: bool): (r: Store)
    ensures forall k :: k in r <==> k in m || (k in ks && Importable(src, k, windows))
  {
    map k | k in m.Keys + (set j | j in ks && Importable(src, j, windows)) ::
      if k in ks && Importable(src, k, windows) then src[k] else m[k]
  }

  /** Copying one more key of the source: the copy loop's step, whatever order the keys come in. */
  lemma ImportKeysStep(m: Store, src: Store, ks: set<string>, k: string, windows: bool)
    ensures ImportKeys(m, src, ks + {k}, windows)
            == if Importable(src, k, windows) then ImportKeys(m, src, ks, windows)[k := src[k]]
               else ImportKeys(m, src, ks, windows)
  {
    var a := ImportKeys(m, src, ks + {k}, windows);
    var b := if Importable(src, k, windows) then ImportKeys(m, src, ks, windows)[k := src[k]]
             else ImportKeys(m, src, ks, windows);
    assert forall j :: j in a <==> j in b;
  }

  /** The destination after `importSettings` copied every key of `src`. */
  function ImportedStore(m: Store, src: Store, windows: bool): Store
  {
    ImportKeys(m, src, src.Keys, windows)
  }

  /**
    What an import leaves: every importable key holds its value in the
    source; every other key, excluded ones included, keeps its old value
    (or stays absent).
  */
  lemma ImportedValues(m: Store, src: Store, windows: bool, k: string)
    ensures var r := ImportedStore(m, src, windows);
            (Importable(src, k, windows) ==> k in r && r[k] == src[k])
            && (!Importable(src, k, windows) ==> (k in r <==> k in m) && (k in r ==> r[k] == m[k]))
  {
  }

  /** Importing the same source twice is importing it once. */
  lemma ImportIdempotent(m: Store, src: Store, windows: bool)
    ensures ImportedStore(ImportedStore(m, src, windows), src, windows) == ImportedStore(m, src, windows)
  {
    var r := ImportedStore(m, src, windows);
    var r2 := ImportedStore(r, src, windows);
    forall k | k in r2 ensures k in r && r2[k] == r[k] {
      ImportedValues(m, src, windows, k);
      ImportedValues(r, src, windows, k);
    }
    assert forall k :: k in r2 <==> k in r;
  }

  /** The import leaves key `k` of the destination as it was: present exactly when it was, with its own value. */
  predicate KeptFrom(r: Store, m: Store, k: string)
  {
    (k in r <==> k in m) && (k in r ==> r[k] == m[k])
  }

  /** The deprecated keys are never copied, and `compilation-server` keeps the destination's own value. */
  lemma ImportSkipsExcluded(m: Store, src: Store, windows: bool)
    ensures forall j :: 0 <= j < |Deprecated| ==> KeptFrom(ImportedStore(m, src, windows), m, Deprecated[j])
    ensures KeptFrom(ImportedStore(m, src, windows), m, "compilation-server")
  {
    forall j | 0 <= j < |Deprecated| ensures KeptFrom(ImportedStore(m, src, windows), m, Deprecated[j]) {
      assert Deprecated[j] in Excluded(windows);
      ImportedValues(m, src, windows, Deprecated[j]);
    }
    assert "compilation-server" in Excluded(windows);
    ImportedValues(m, src, windows, "compilation-server");
  }

  /**
    On Windows the tool locations and the install-specific keys are not
    taken from the old release; elsewhere a valid tool location is.
  */
  lemma ImportKeepsWindowsTools(m: Store, src: Store)
    ensures KeptFrom(ImportedStore(m, src, true), m, "avrdudeLocation")
    ensures KeptFrom(ImportedStore(m, src, true), m, "dfu_location")
    ensures KeptFrom(ImportedStore(m, src, true), m, "Start Menu Folder")
    ensures KeptFrom(ImportedStore(m, src, true), m, ".")
    ensures "dfu_location" in src && src["dfu_location"] != Invalid ==>
              "dfu_location" in ImportedStore(m, src, false) && ImportedStore(m, src, false)["dfu_location"] == src["dfu_location"]
  {
    var w := Excluded(true);
    assert w[|w| - 5] == "avrdude_location" && w[|w| - 4] == "avrdudeLocation" && w[|w| - 3] == "dfu_location";
    assert w[|w| - 2] == "Start Menu Folder" && w[|w| - 1] == ".";
    ImportedValues(m, src, true, "avrdudeLocation");
    ImportedValues(m, src, true, "dfu_location");
    ImportedValues(m, src, true, "Start Menu Folder");
    ImportedValues(m, src, true, ".");
    NotExcludedElsewhere();
    ImportedValues(m, src, false, "dfu_location");
  }

  /** Outside Windows `dfu_location` is not on the exclusion list. */
  lemma NotExcludedElsewhere()
    ensures "dfu_location" !in Excluded(false)
  {
    DeprecatedShape();
    assert Excluded(false) == Deprecated + ["compilation-server"];
    assert "dfu_location"[0] == 'd';
  }

}
