# OpenTX Companion settings layer, modelled in Dafny

This project models how OpenTX Companion keeps its settings. The code lives
in `companion/src/storage/appdata.h` and `appdata.cpp`.

The settings live in one key/value store, a `QSettings` object. Its keys are
slash-separated paths, and the model holds the store as a
`map<string, Value>` in a shared `CompStore.SettingsStore` object. A few kinds
of objects read and write that store:

- a `Profile` per radio (fifteen of them);
- a `JStickData` per joystick axis (eight of them);
- the `FwRevision` table;
- the `AppData` object, which owns all of the above plus the application-wide
  properties.

Every property is declared with one `PROPERTY4(type, name, key, default)`
line, and the model follows that plan:

- **The property, once.** A property is a descriptor (`CompStore.Property`:
  key, type, default). One generic set of functions, in `PropertyLists`,
  describes what a run of setters, resets or `_init()` calls does to the
  in-memory values and to the store.
- **The setter** stores a value, or removes the key when the value equals
  the default (`CompStore.StoreOrOmit`).
- **The `_init()`** loads the key. It keeps the old value when the stored
  one cannot convert to the property's type (`CompStore.LoadValue`).
- **Removal** of a key follows `QSettings::remove`: the key goes, and so does
  every key below it (`Paths.RemoveTree`).
- **Stateful objects keep their form.** Each becomes a Dafny `class` whose
  methods change the shared store and the object's own fields. They are
  proved against the functions above, and the lemmas say what those
  functions mean:
  - a setter reads back, and a removed profile no longer exists on disk;
  - a removal never reaches another profile's directory;
  - `operator=` copies everything but the time stamp;
  - `convertSettings` is idempotent;
  - `findPreviousVersionSettings` reports the newest older release;
  - `importSettings` never copies an excluded key.

Decisions about the model:

- The application object is explicit. The source's global `g` is not
  modelled, so `getActiveProfiles` reads the profiles of the object it is
  called on.
- The stores of the three older products (2.1, 2.0 and 1.x) are parameters
  of `findPreviousVersionSettings` and `importSettings`.
- The Windows-only exclusions are a boolean parameter.

## Model

| member | source | states |
|---|---|---|
| Values.ParseIntOfIntToString | companion/src/storage/appdata.cpp:40-45 | the decimal text of any 32-bit number parses back to that number, as `QString::toInt` reads it |
| Values.IntToStringInjective | companion/src/storage/appdata.cpp:47-51 | two revisions with the same decimal text are equal, so the keys `set` writes for different revisions differ |
| Values.ConvertTo | companion/src/storage/appdata.h:140-146 | a convertible value converts to one of the requested type, and a value already of that type is returned unchanged |
| Paths.JoinPath | companion/src/storage/appdata.h:118-124 | the path is the base, then one '/' exactly when the base is non-empty and lacks a trailing one, then the key |
| Paths.PathForKey | companion/src/storage/appdata.h:118-124 | a null group joins the key to the object's settings path; any other group, even an empty one, is joined verbatim |
| Paths.RemoveTree | companion/src/storage/appdata.cpp:28-35 | after `remove(p)` exactly the keys outside the scope of `p` remain, each with its old value |
| Paths.RemoveTreeIdempotent | companion/src/storage/appdata.cpp:28-35 | removing the same key twice is removing it once |
| Paths.SiblingsDisjoint | companion/src/storage/appdata.h:69-76 | removing one property key of a directory never removes a different sibling key |
| Paths.DisjointDirectories | companion/src/storage/appdata.h:244 | removal scopes of two sibling directories with different names share no key, so `profile1/` never reaches into `profile10/` |
| Paths.UnderNested | companion/src/storage/appdata.cpp:129-135 | a key removed together with a property key of a directory also lies in that directory's scope |
| Paths.RemoveTreesSnoc | companion/src/storage/appdata.cpp:324-325 | removing the deprecated keys one after another, in order, equals removing all their scopes at once |
| CompStore.LoadValue | companion/src/storage/appdata.h:140-146 | `load` gives the default for an absent key and the stored value when it has the type; it leaves the destination unchanged when the value cannot convert; the result always has the property's type |
| CompStore.StoreOrOmit | companion/src/storage/appdata.h:69-76 | the setter's store holds the key exactly when the value differs from the default, holds the value there, and changes no key outside that key's scope |
| CompStore.SetterReadBack | companion/src/storage/appdata.h:69-76 | whatever a setter stores, or omits because it is the default, loads back as the value that was set |
| CompStore.LoadValueIdempotent | companion/src/storage/appdata.h:140-146 | loading into the result of the same load changes nothing |
| CompStore.GetSetStable | companion/src/storage/appdata.h:149-154 | a `load` after `getset` reads back exactly the value `getset` loaded and stored |
| CompStore.SettingsStore.Store | companion/src/storage/appdata.h:133-137 | the store afterwards holds the new value at `pathForKey(key, group)` and is otherwise unchanged |
| CompStore.SettingsStore.Clear | companion/src/storage/appdata.cpp:28-35 | the key (joined to the group) and everything below it are removed; every key outside that scope is kept |
| CompStore.SettingsStore.Load | companion/src/storage/appdata.h:140-146 | returns what `LoadValue` gives at `pathForKey(key, group)` and leaves the store unchanged |
| CompStore.SettingsStore.GetSet | companion/src/storage/appdata.h:149-154 | returns the loaded value, and the store then holds exactly that value at the key |
| CompStore.SettingsStore.StoreProperty | companion/src/storage/appdata.h:69-76 | a `PROPERTY4` setter with `store`: the key in the object's directory is written, or removed when the value is the default |
| PropertyLists.LoadFieldsAt | companion/src/storage/appdata.h:80-82 | after a run of `_init()` calls every listed property holds what its own key loads to from its previous value; unlisted properties keep theirs, even when a property is listed twice |
| PropertyLists.SetFieldsAt | companion/src/storage/appdata.h:69-77 | after a run of setter calls every listed property holds the value it was given (its default for a reset); the others keep theirs |
| PropertyLists.StoreFieldsAt | companion/src/storage/appdata.h:69-77 | after a run of setters on keys that do not overlap, each listed key is present exactly when its value is not the default, and then holds it |
| PropertyLists.StoreFieldsFrame | companion/src/storage/appdata.h:69-77 | a run of setters leaves every key outside the scopes of the listed keys as it was |
| Globals.GProp | companion/src/storage/appdata.h:327-391 | each modelled global property's default has its declared type |
| Globals.GlobalInitOrderComplete | companion/src/storage/appdata.cpp:234-293 | `init` loads every modelled global property |
| Globals.InitialGlobals | companion/src/storage/appdata.h:250-254 | a freshly constructed `AppData` initialises no global property, so each holds the zero value of its declared type (0, false, empty), not its declared default, until `init` loads it |
| Migration.WizardAction | companion/src/storage/appdata.cpp:312-317 | the derived `newModelAction` is 1 (wizard) exactly when the old `useWizard` value reads as true, and 2 (editor) exactly when it reads as false |
| Migration.ConvertedStoreIsConverted | companion/src/storage/appdata.cpp:307-326 | after `convertSettings` no `useWizard`, no warning id 7 and no key in a deprecated scope remain |
| Migration.ConvertFixesConverted | companion/src/storage/appdata.cpp:307-326 | on a store with nothing left to convert, `convertSettings` changes nothing |
| Migration.ConvertIdempotent | companion/src/storage/appdata.cpp:307-326 | running `convertSettings` twice is running it once |
| Migration.ConvertDerivesNewModelAction | companion/src/storage/appdata.cpp:312-317 | with `useWizard` stored and no `newModelAction`, the converted store loads `newModelAction` as 1 or 2 according to `useWizard` |
| Migration.ConvertKeepsNewModelAction | companion/src/storage/appdata.cpp:312-317 | a stored `newModelAction` survives the conversion unchanged, whatever `useWizard` said |
| Migration.ConvertResetsOldWarning | companion/src/storage/appdata.cpp:318-321 | a warning id of 7 is removed, so `warningId` loads as its default 0 |
| Migration.ConvertKeepsWarning | companion/src/storage/appdata.cpp:318-321 | any other stored warning id is kept unchanged |
| Migration.ConvertFrame | companion/src/storage/appdata.cpp:307-326 | a key outside the scopes of the keys the conversion touches is present afterwards exactly when it was before, with the same value |
| Migration.KeysApart | companion/src/storage/appdata.cpp:206-227 | none of the keys `convertSettings` and `init` write lies in the removal scope of another key they touch |
| Migration.MarkVersion | companion/src/storage/appdata.cpp:226-227 | after the marker `getset` the marker is a string; it is "220" when there was none, a string marker stays as it was, and no other key changes |
| Migration.MarkVersionKeepsConverted | companion/src/storage/appdata.cpp:216-227 | writing the marker after the conversion leaves the store converted |
| Migration.InitStore | companion/src/storage/appdata.cpp:208-295 | `init` leaves the store converted and holding the version marker |
| Migration.InitStoreIdempotent | companion/src/storage/appdata.cpp:208-295 | `init`'s store updates, applied to a store they produced, change nothing |
| Migration.InitStoreOfEmpty | companion/src/storage/appdata.cpp:208-295 | on an empty store `init` writes exactly the version marker "220" |
| Migration.ReleaseOf | companion/src/storage/appdata.cpp:374-389 | the labels "2.1", "2.0" and "1.x" select their release, each label exactly one; any other label selects none |
| Migration.PreviousVersionIsNewest | companion/src/storage/appdata.cpp:328-368 | the reported version is empty exactly when no older store holds the marker; otherwise it is the label of a store that holds the marker, and no newer store holds one |
| Migration.Probed | companion/src/storage/appdata.cpp:328-368 | an older store holding the marker is left as it is; one without the marker is cleared |
| Migration.ImportKeys | companion/src/storage/appdata.cpp:406-411 | after copying the keys of a set, a key is present exactly when it was present before or it belongs to the set and is importable |
| Migration.ImportKeysStep | companion/src/storage/appdata.cpp:406-411 | one more step of the copy loop adds that key's value if it is importable, whatever order the keys come in |
| Migration.ImportedValues | companion/src/storage/appdata.cpp:406-411 | after the import, an importable key holds the source's value and every other key keeps the destination's own |
| Migration.ImportIdempotent | companion/src/storage/appdata.cpp:406-411 | importing the same source twice is importing it once |
| Migration.ImportSkipsExcluded | companion/src/storage/appdata.cpp:396-411 | no deprecated key and no `compilation-server` is ever copied: each stays in the destination exactly as it was, present or absent |
| Migration.ImportKeepsWindowsTools | companion/src/storage/appdata.cpp:399-404 | on Windows the tool locations and the install-specific keys `Start Menu Folder` and `.` keep the destination's own values; elsewhere a valid `dfu_location` is taken from the old release |
| FwRevisions.RevisionOf | companion/src/storage/appdata.cpp:40-45 | `get` always gives a 32-bit number, and gives 0 when the key is absent or holds a value that does not convert to text |
| FwRevisions.RevisionReadsStoredNumber | companion/src/storage/appdata.cpp:40-45 | a revision stored as decimal text or as a number reads back as that revision |
| FwRevisions.SetKeyIsNeverGetKey | companion/src/storage/appdata.cpp:47-51 | the key `set(fwType, rev)` writes is never the key `get(fwType)` reads |
| FwRevisions.SetIsInvisibleToGet | companion/src/storage/appdata.cpp:40-51 | there is no set/get round trip: after `set(fwType, rev)`, `get(fwType)` returns what it returned before |
| FwRevisions.SetReachesAnotherType | companion/src/storage/appdata.cpp:40-51 | `set("FwRevisions", rev)` writes `FwRevisions/<rev>`, the key that `get` of the firmware type spelled by the digits of `rev` reads, and that get returns `rev` |
| FwRevisions.FwRevision.Get | companion/src/storage/appdata.cpp:40-45 | returns the revision the store holds for the firmware type |
| FwRevisions.FwRevision.Set | companion/src/storage/appdata.cpp:47-51 | writes the revision's decimal text under the key `<fwType>/<revision>` and changes nothing else |
| FwRevisions.FwRevision.Remove | companion/src/storage/appdata.cpp:53-56 | removes the tag's entry and everything below it, after which `get(tag)` gives 0 |
| Profiles.Prop | companion/src/storage/appdata.h:203-239 | every profile property's default has its declared type |
| Profiles.InitOrderComplete | companion/src/storage/appdata.cpp:163-202 | `Profile::init` loads every property |
| Profiles.AssignOrderComplete | companion/src/storage/appdata.cpp:91-127 | `operator=` copies exactly the properties other than the time stamp |
| Profiles.KeysDiffer | companion/src/storage/appdata.h:203-239 | two different profile properties have different keys |
| Profiles.ProfilesDisjoint | companion/src/storage/appdata.h:244 | the directories of two different profiles share no key |
| Profiles.KeyInDirectory | companion/src/storage/appdata.h:244 | every key removed with a profile property lies inside the profile's directory |
| Profiles.InitEffect | companion/src/storage/appdata.cpp:163-202 | after `init` each property holds what its own key loads to from its previous value, and every property has its declared type |
| Profiles.RemoveEffect | companion/src/storage/appdata.cpp:129-135 | after `remove` the profile no longer exists on disk, every property is at its default, and no key outside the directory changed, in particular no key of another profile |
| Profiles.AssignValues | companion/src/storage/appdata.cpp:91-127 | after `operator=` every property but the time stamp holds the source profile's value, and the time stamp keeps its own |
| Profiles.AssignStore | companion/src/storage/appdata.cpp:91-127 | after `operator=` each copied property's key is present exactly when the copied value differs from the default, and then holds it; the time-stamp key and every key outside the directory are kept |
| Profiles.AssignThenLoad | companion/src/storage/appdata.cpp:91-127 | loading a copied property back from the store gives the copied value, whatever the reader held before |
| Profiles.ResetFwValues | companion/src/storage/appdata.cpp:142-161 | `resetFwVariables` puts exactly the firmware-related properties at their defaults and leaves the others as they were |
| Profiles.ResetFwStore | companion/src/storage/appdata.cpp:142-161 | `resetFwVariables` removes the key of every firmware-related property |
| Profiles.ResetFwFrame | companion/src/storage/appdata.cpp:142-161 | `resetFwVariables` keeps the key of every other property and every key outside the profile's directory |
| Profiles.ExistsAfterSetName | companion/src/storage/appdata.cpp:137-140 | storing a name makes the profile exist on disk exactly when the name is not empty |
| Profiles.Profile.constructor | companion/src/storage/appdata.h:193 | a new profile has index -1; its properties are not initialised, so each holds the zero value of its type, not its default |
| Profiles.Profile.Get | companion/src/storage/appdata.h:68 | the getter returns a value of the property's declared type |
| Profiles.Profile.SettingsPath | companion/src/storage/appdata.h:244 | the profile's settings path is a directory (it ends in '/') |
| Profiles.Profile.Set | companion/src/storage/appdata.h:69-76 | the property takes the new value, and with `store` its key is written or removed as for a default |
| Profiles.Profile.ResetField | companion/src/storage/appdata.h:77 | the property returns to its default, and with `store` its key is removed |
| Profiles.Profile.InitField | companion/src/storage/appdata.h:80-82 | the property loads from its key, keeping its value on a type mismatch; no other property changes |
| Profiles.Profile.InitFields | companion/src/storage/appdata.cpp:163-202 | the `_init()` of each listed property, in order |
| Profiles.Profile.Init | companion/src/storage/appdata.cpp:163-202 | the index becomes the new one, and every property loads from its key under that index |
| Profiles.Profile.AssignFields | companion/src/storage/appdata.cpp:91-127 | the setter of each listed property, called with the source profile's value, for both the values and the store |
| Profiles.Profile.Assign | companion/src/storage/appdata.cpp:91-127 | `operator=` copies every property but the time stamp through its setter and keeps the index |
| Profiles.Profile.ResetFields | companion/src/storage/appdata.cpp:142-161 | the reset of each listed property, in order, for both the values and the store |
| Profiles.Profile.Remove | companion/src/storage/appdata.cpp:129-135 | the profile's whole directory is removed, then every property loads again under the same index |
| Profiles.Profile.ExistsOnDisk | companion/src/storage/appdata.cpp:137-140 | true exactly when the profile's `Name` key is stored |
| Profiles.Profile.ResetFwVariables | companion/src/storage/appdata.cpp:142-161 | the firmware-related properties are reset, in the source's order, and the index stays |
| Joysticks.Prop | companion/src/storage/appdata.h:179-183 | each joystick property is an int whose key is one non-empty path component, with a default of that type |
| Joysticks.FieldsComplete | companion/src/storage/appdata.cpp:61-80 | `init` and `reset` cover all five properties |
| Joysticks.KeysDisjoint | companion/src/storage/appdata.h:179-187 | two different (joystick, property) pairs never name the same key, nor one below the other |
| Joysticks.KeysSeparate | companion/src/storage/appdata.h:179-187 | the five keys of one joystick are distinct, each a single non-empty path component inside `JsCalibration/` |
| Joysticks.ExistsAfterSetAxe | companion/src/storage/appdata.cpp:82-85 | storing an axis value makes the joystick exist on disk exactly when the value is not negative |
| Joysticks.ResetEffect | companion/src/storage/appdata.cpp:72-80 | after `reset` every property is at its default, none of the five keys is stored, the joystick does not exist on disk, and no other key changed |
| Joysticks.LoadedValues | companion/src/storage/appdata.cpp:61-70 | after `init` each property holds what its own key loads to from its previous value |
| Joysticks.InitAfterReset | companion/src/storage/appdata.cpp:61-80 | loading a joystick from a store it was just reset in gives every property its default |
| Joysticks.JStickData.constructor | companion/src/storage/appdata.h:173 | a new joystick has index -1; its properties are not initialised, so each holds 0, not its default |
| Joysticks.JStickData.Set | companion/src/storage/appdata.h:69-76 | the property takes the new value, and with `store` its key is written or removed as for a default |
| Joysticks.JStickData.ResetField | companion/src/storage/appdata.h:77 | the property returns to its default, and with `store` its key is removed |
| Joysticks.JStickData.InitField | companion/src/storage/appdata.h:80-82 | the property loads from its key, keeping its value on a type mismatch |
| Joysticks.JStickData.Init | companion/src/storage/appdata.cpp:61-70 | the index becomes the new one, and each property holds what its key under that index loads to |
| Joysticks.JStickData.Reset | companion/src/storage/appdata.cpp:72-80 | every property is reset in order, for both the values and the store; the index stays |
| Joysticks.JStickData.ExistsOnDisk | companion/src/storage/appdata.cpp:82-85 | true exactly when the axis value loads as an int above -1 |
| App.NewProfiles | companion/src/storage/appdata.h:319 | fifteen distinct profiles on the shared store, each with index -1 and every property at the zero value of its type |
| App.NewJoysticks | companion/src/storage/appdata.h:320 | eight distinct joysticks on the shared store, each with index -1 and every property 0 |
| App.AppData.constructor | companion/src/storage/appdata.h:250-254 | both profile ids are 0; no profile or joystick is loaded yet; every property, of the application and of each profile and joystick, holds the zero value of its type |
| App.AppData.Get | companion/src/storage/appdata.h:68 | a global property's getter returns a value of its declared type |
| App.AppData.Set | companion/src/storage/appdata.h:69-76 | the global takes the new value, and with `store` its top-level key is written or removed as for a default; the profile ids stay |
| App.AppData.ResetGlobal | companion/src/storage/appdata.h:77 | the global returns to its default and its key is removed |
| App.AppData.InitGlobal | companion/src/storage/appdata.h:80-82 | the global loads from its key, keeping its value on a type mismatch |
| App.AppData.InitGlobals | companion/src/storage/appdata.cpp:234-293 | the `_init()` of each listed global, in order |
| App.AppData.SetSessionId | companion/src/storage/appdata.h:263-267 | the session profile becomes `x` when it is a valid index; otherwise it stays; nothing else changes |
| App.AppData.SetId | companion/src/storage/appdata.h:272-279 | a valid index becomes both the saved and the session profile and is written to the store (a 0 too); an invalid one changes nothing |
| App.AppData.GetProfile | companion/src/storage/appdata.h:287-300 | the profile at a valid index; profile 0 for any other index |
| App.AppData.CurrentProfile | companion/src/storage/appdata.h:282-284 | the profile of the session id, which is always a valid index, so never the fallback |
| App.AppData.ConvertSettings | companion/src/storage/appdata.cpp:307-326 | the store becomes the converted store, the globals take the values the conversion's setters give, and the profile ids stay |
| App.AppData.ConvertWizard | companion/src/storage/appdata.cpp:312-317 | `useWizard` is removed, and it sets `newModelAction` only when that key was absent |
| App.AppData.ConvertWarning | companion/src/storage/appdata.cpp:318-321 | a stored warning id of 7 resets `warningId`; any other warning id does nothing |
| App.AppData.RemoveDeprecated | companion/src/storage/appdata.cpp:324-325 | removes every deprecated key and everything below it, and nothing else |
| App.AppData.InitProfiles | companion/src/storage/appdata.cpp:219-220 | profile `i` is loaded under index `i`, for every `i` |
| App.AppData.InitProfile | companion/src/storage/appdata.cpp:219-220 | one step of the profile loop: profile `i` is loaded under index `i` |
| App.AppData.InitJoysticks | companion/src/storage/appdata.cpp:223-224 | joystick `i` is loaded under index `i`, for every `i` |
| App.AppData.InitJoystick | companion/src/storage/appdata.cpp:223-224 | one step of the joystick loop |
| App.AppData.InitObjects | companion/src/storage/appdata.cpp:219-224 | both loops, over the same store |
| App.AppData.InitMarkerAndGlobals | companion/src/storage/appdata.cpp:226-293 | the marker is written; the saved profile id loads and is selected for the session when valid; the globals load |
| App.AppData.Init | companion/src/storage/appdata.cpp:208-295 | first use is exactly "no version marker before"; the store ends converted and marked; profiles and joysticks load from the converted store; the saved profile id is selected when valid; the globals load last, after the conversion's setters |
| App.AppData.GetActiveProfiles | companion/src/storage/appdata.cpp:297-305 | an index is in the result exactly when its profile exists on disk, and it maps to that profile's name |
| App.AppData.FindPreviousVersionSettings | companion/src/storage/appdata.cpp:328-368 | reports the newest older release holding the marker, returns true exactly when one does, and clears every older store without the marker |
| App.AppData.ImportSettings | companion/src/storage/appdata.cpp:370-414 | an accepted label exactly when it names a release; an unknown label returns false, leaves the store alone and sets the version upgraded from to ""; otherwise that release's importable keys are copied and the label is remembered |
| App.AppData.CopyImportable | companion/src/storage/appdata.cpp:396-411 | every valid key of the source outside the exclusion list is copied, in any order; nothing else changes |

## Left out

- The `QSettings` file format, its platform back-ends and its key
  normalisation are not modelled. The store is an in-memory map with
  slash-separated keys.
- `QVariant` is reduced to the types the core uses: string, int, bool, byte
  array, string list, simulator options, and an invalid value. A conversion
  from string to int or bool follows `QString::toInt` and `toBool`. It does
  not skip surrounding white space, and `toLower` folds ASCII letters only.
- Values.CanConvert: the conversions between a byte array and the other
  types are not modelled. A stored byte array converts only to a byte
  array, and only a byte array converts to one. Qt also converts a
  `QByteArray` to and from `QString`, and from it to int and bool. So the
  model keeps the old value where Qt would convert: for example a string
  loaded into `mainWindowGeometry`, or a revision stored as a byte array
  and read by `FwRevision::get`. Modelling this needs the UTF-8 coding
  between the two, which is not part of this model.
- FwRevisions.FwRevision.Set: the firmware type is a string and never the
  null `QString`. With a null type, `pathForKey` falls back to
  `FwRevisions/` and the revision would be written at `FwRevisions/<rev>`;
  Dafny strings cannot be null.
- Profiles.Profile.constructor, Joysticks.JStickData.constructor and
  App.AppData.constructor: the properties start at the zero value of their
  types. That is what the members of the one `AppData` object in the
  program (`g`, appdata.cpp:24, which has static storage) hold. An object of
  automatic storage would start with indeterminate numbers instead, and the
  model does not represent those.
- `SimulatorOptions` streaming (its `operator<<` and `operator>>`) and
  `qRegisterMetaType` are not modelled. The options are a value stored and
  loaded as a whole.
- Logging through `qDebug` is left out since it has no effect on the settings.
- `appLogsDir` (line 357) is left out: its default comes from an operating
  system query.
- `boundedOpenTxBranch` and the `OpenTxBranch` property (lines 311-317 and
  359) are left out. They rely on a firmware branch enumeration that is not
  part of this model.
- Globals: only sixteen global properties are modelled. They cover every
  stored type and every global that the conversion and the import treat
  specially. The other `PROPERTY` lines of appdata.h:327-391 behave in the
  same way.
- Globals.GProp: `newModelAction` is `unsigned` in the source but an
  unbounded int here. No other integer property models the 32-bit width,
  because nothing in the core does arithmetic on them.
- App.AppData.Init: the loops and the global `_init()` calls are split into
  helper methods (`InitObjects`, `InitMarkerAndGlobals`), in the order
  `init` calls them.
- App.AppData.GetActiveProfiles: it reads this object's profiles. The source
  reads those of the global instance `g`, which is the same object whenever
  the function is called on `g`. The singleton is not modelled.
- App.AppData.FindPreviousVersionSettings: the three older products' stores
  are parameters and must be different objects. The source opens them by
  product name.
- App.AppData.ImportSettings: the older stores are parameters, and the
  Windows `#ifdef` is the `windows` parameter.
- App.AppData.constructor: the `profile` and `joystick` member arrays are
  `seq`s of distinct objects fixed at construction. The objects are updated
  in place and the sequence never changes, as with the source's member
  arrays.

## Notes on the source

Where a description of the intended behaviour and the code part ways, the
model follows the code:

- `Profile::existsOnDisk` checks that the `Name` key is stored. Its setter
  removes that key when the name equals its default, the empty string. So a
  profile whose name was set to "" does not exist on disk
  (`Profiles.ExistsAfterSetName`), even though its other properties may
  still be stored.
- `importSettings` leaves out the deprecated keys while it copies, but it
  does not remove them from the destination. A deprecated key the
  destination already holds stays until the next `convertSettings`.
- `FwRevision::set` passes the firmware type as the group and the revision
  text as the key. It therefore writes `<fwType>/<revision>` rather than
  `FwRevisions/<fwType>`. A later `get` of the same firmware type never
  sees the value written (`FwRevisions.SetIsInvisibleToGet`). The key
  written is not always outside `FwRevisions/`: `set("FwRevisions", 218)`
  writes `FwRevisions/218`, which `get("218")` reads as 218
  (`FwRevisions.SetReachesAnotherType`).
