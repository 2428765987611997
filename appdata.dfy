/**
  `AppData`: the application settings object. It owns the radio profiles,
  the joystick calibrations and the firmware revisions, all sharing one
  store, holds the global properties at the top level of that store
  (settings path empty), and runs the start-up sequence: conversion of old
  keys, loading of every object, and the version marker.
*/
module App {

  import opened Values
  import opened Paths
  import opened CompStore
  import opened PropertyLists
  import opened Globals
  import opened Migration
  import Profiles
  import Joysticks
  import FwRevisions

  /** The key `id(int)` saves the user-selected profile under. */
  const ProfileIdKey := "profileId"

  /** The `profile[MAX_PROFILES]` member array: distinct profiles on the shared store, none loaded yet. */
  method NewProfiles(settings: SettingsStore) returns (ps: seq<Profiles.Profile>)
    ensures |ps| == Profiles.MAX_PROFILES
    ensures forall k :: 0 <= k < |ps| ==>
                fresh(ps[k]) && ps[k].settings == settings && ps[k].Valid() && ps[k].index == -1
                && forall f :: ps[k].vals[f] == ZeroOf(Profiles.PTy(f))
    ensures forall k, l :: 0 <= k < l < |ps| ==> ps[k] != ps[l]
  {
    ps := [];
    for i := 0 to Profiles.MAX_PROFILES
      invariant |ps| == i
      invariant forall k :: 0 <= k < i ==>
                  fresh(ps[k]) && ps[k].settings == settings && ps[k].Valid() && ps[k].index == -1
                  && forall f :: ps[k].vals[f] == ZeroOf(Profiles.PTy(f))
      invariant forall k, l :: 0 <= k < l < i ==> ps[k] != ps[l]
    {
      var p := new Profiles.Profile(settings);
      ps := ps + [p];
    }
  }

  /** The `joystick[MAX_JOYSTICKS]` member array. */
  method NewJoysticks(settings: SettingsStore) returns (js: seq<Joysticks.JStickData>)
    ensures |js| == Joysticks.MAX_JOYSTICKS
    ensures forall k :: 0 <= k < |js| ==>
                fresh(js[k]) && js[k].settings == settings && js[k].Valid() && js[k].index == -1
                && forall f :: js[k].vals[f] == Int(0)
    ensures forall k, l :: 0 <= k < l < |js| ==> js[k] != js[l]
  {
    js := [];
    for i := 0 to Joysticks.MAX_JOYSTICKS
      invariant |js| == i
      invariant forall k :: 0 <= k < i ==>
                  fresh(js[k]) && js[k].settings == settings && js[k].Valid() && js[k].index == -1
                  && forall f :: js[k].vals[f] == Int(0)
      invariant forall k, l :: 0 <= k < l < i ==> js[k] != js[l]
    {
      var j := new Joysticks.JStickData(settings);
      js := js + [j];
    }
  }

  class AppData {
    const settings: SettingsStore
    /** `profile[MAX_PROFILES]`: the objects are updated in place, never replaced. */
    const profile: seq<Profiles.Profile>
    /** `joystick[MAX_JOYSTICKS]`. */
    const joystick: seq<Joysticks.JStickData>
    const fwRev: FwRevisions.FwRevision
    /** The global properties. */
    var vals: map<Global, Value>
    /** `m_profileId`: the last profile the user selected, persisted. */
    var profileId: int
    /** `m_sessionId`: the profile active in this session, not persisted. */
    var sessionId: int
    var firstUse: bool
    var upgradeFromVersion: string

    /** The owned objects: as many as the source declares, distinct, valid, all on the shared store. */
    ghost predicate ObjectsValid()
      reads profile, joystick
    {
      && |profile| == Profiles.MAX_PROFILES && |joystick| == Joysticks.MAX_JOYSTICKS
      && (forall i :: 0 <= i < |profile| ==> profile[i].settings == settings && profile[i].Valid())
      && (forall i, j :: 0 <= i < j < |profile| ==> profile[i] != profile[j])
      && (forall i :: 0 <= i < |joystick| ==> joystick[i].settings == settings && joystick[i].Valid())
      && (forall i, j :: 0 <= i < j < |joystick| ==> joystick[i] != joystick[j])
      && fwRev.settings == settings
    }

    /** The global properties hold values of their declared types and the session id is a profile index. */
    ghost predicate Valid()
      reads this
    {
      WellTypedGlobals(vals) && 0 <= sessionId < Profiles.MAX_PROFILES
    }

    /**
      `AppData()`: both profile ids 0; no object is loaded yet, and every
      property, of the application and of each profile and joystick, holds
      the zero value of its type.
    */
    constructor (settings: SettingsStore)
      ensures Valid() && ObjectsValid() && this.settings == settings
      ensures vals == InitialGlobals() && profileId == 0 && sessionId == 0
      ensures !firstUse && upgradeFromVersion == ""
      ensures forall i :: 0 <= i < |profile| ==> profile[i].index == -1
      ensures forall i :: 0 <= i < |joystick| ==> joystick[i].index == -1
      ensures forall i, f :: 0 <= i < |profile| ==> profile[i].vals[f] == ZeroOf(Profiles.PTy(f))
      ensures forall i, f :: 0 <= i < |joystick| ==> joystick[i].vals[f] == Int(0)
    {
      var ps := NewProfiles(settings);
      var js := NewJoysticks(settings);
      this.settings := settings;
      profile := ps;
      joystick := js;
      fwRev := new FwRevisions.FwRevision(settings);
      vals := InitialGlobals();
      profileId := 0;
      sessionId := 0;
      firstUse := false;
      upgradeFromVersion := "";
    }

    /** The getter of global property `g`. */
    function Get(g: Global): (v: Value)
      requires WellTypedGlobals(vals)
      reads this
      ensures HasType(v, GTy(g))
    {
      vals[g]
    }

    /** `hasCurrentSettings()`: the store holds the version marker. */
    predicate HasCurrentSettings()
      reads this, settings
    {
      settings.Contains(SettingsVersionKey)
    }

    /** The `PROPERTY4` setter of global property `g`. */
    method Set(g: Global, v: Value, store: bool := true)
      requires Valid() && HasType(v, GTy(g))
      modifies this, settings
      ensures Valid() && vals == old(vals)[g := v]
      ensures settings.data == if store then StoreOrOmit(old(settings.data), GProp(g).key, GProp(g).dflt, v)
                               else old(settings.data)
      ensures profileId == old(profileId) && sessionId == old(sessionId)
      ensures firstUse == old(firstUse) && upgradeFromVersion == old(upgradeFromVersion)
    {
      UpdateWellTyped(vals, g, v);
      vals := vals[g := v];
      if store {
        settings.StoreProperty("", GProp(g), v);
      }
    }

    /** `<name>Reset()`: global property `g` back to its default, its key removed. */
    method ResetGlobal(g: Global)
      requires Valid()
      modifies this, settings
      ensures Valid() && vals == old(vals)[g := GProp(g).dflt]
      ensures settings.data == RemoveTree(old(settings.data), GProp(g).key)
      ensures profileId == old(profileId) && sessionId == old(sessionId)
      ensures firstUse == old(firstUse) && upgradeFromVersion == old(upgradeFromVersion)
    {
      Set(g, GProp(g).dflt);
    }

    /** `<name>_init()` for global property `g`. */
    method InitGlobal(g: Global)
      requires Valid()
      modifies this
      ensures Valid() && vals == old(vals)[g := LoadValue(settings.data, GProp(g).key, GProp(g).dflt, GTy(g), old(vals)[g])]
      ensures profileId == old(profileId) && sessionId == old(sessionId)
      ensures firstUse == old(firstUse) && upgradeFromVersion == old(upgradeFromVersion)
    {
      var p := GProp(g);
      assert HasType(vals[g], p.ty) && HasType(p.dflt, p.ty);
      var v := settings.Load("", vals[g], p.key, p.dflt, p.ty);
      UpdateWellTyped(vals, g, v);
      vals := vals[g := v];
    }

    /** The `_init()` calls of the global properties of `order`, in turn. */
    method InitGlobals(order: seq<Global>)
      requires Valid()
      modifies this
      ensures Valid() && vals == LoadFields(settings.data, "", GProp, order, old(vals))
      ensures profileId == old(profileId) && sessionId == old(sessionId)
      ensures firstUse == old(firstUse) && upgradeFromVersion == old(upgradeFromVersion)
    {
      for n := 0 to |order|
        invariant Valid() && vals == LoadFields(settings.data, "", GProp, order[..n], old(vals))
        invariant profileId == old(profileId) && sessionId == old(sessionId)
        invariant firstUse == old(firstUse) && upgradeFromVersion == old(upgradeFromVersion)
      {
        assert order[..n + 1][..n] == order[..n];
        InitGlobal(order[n]);
      }
      assert order[..|order|] == order;
    }

    /** `sessionId(x)`: selects profile `x` for this session; an index out of range is ignored. */
    method SetSessionId(x: int)
      requires Valid()
      modifies this
      ensures Valid()
      ensures sessionId == if 0 <= x < Profiles.MAX_PROFILES then x else old(sessionId)
      ensures vals == old(vals) && profileId == old(profileId)
      ensures firstUse == old(firstUse) && upgradeFromVersion == old(upgradeFromVersion)
    {
      if x > -1 && x < Profiles.MAX_PROFILES {
        sessionId := x;
      }
    }

    /**
      `id(index)`: selects profile `index` for this session and saves it as
      the user's choice (with `store`, so a 0 is written too); an index out
      of range changes nothing.
    */
    method SetId(index: int)
      requires Valid()
      modifies this, settings
      ensures Valid()
      ensures 0 <= index < Profiles.MAX_PROFILES ==>
                profileId == index && sessionId == index && settings.data == old(settings.data)[ProfileIdKey := Int(index)]
      ensures !(0 <= index < Profiles.MAX_PROFILES) ==>
                profileId == old(profileId) && sessionId == old(sessionId) && settings.data == old(settings.data)
      ensures vals == old(vals) && firstUse == old(firstUse) && upgradeFromVersion == old(upgradeFromVersion)
    {
      if index < 0 || index >= Profiles.MAX_PROFILES {
        return;
      }
      profileId := index;
      SetSessionId(profileId);
      settings.Store("", Int(profileId), ProfileIdKey);
    }

    /** `getProfile(index)`: the profile at `index`, or the default profile 0 for an index out of range. */
    function GetProfile(index: int): (p: Profiles.Profile)
      requires ObjectsValid()
      reads profile, joystick
      ensures p.Valid() && p.settings == settings
      ensures 0 <= index < Profiles.MAX_PROFILES ==> p == profile[index]
      ensures !(0 <= index < Profiles.MAX_PROFILES) ==> p == profile[0]
    {
      if index > -1 && index < Profiles.MAX_PROFILES then profile[index] else profile[0]
    }

    /** `currentProfile()`: never the fallback, since the session id is always a valid index. */
    function CurrentProfile(): (p: Profiles.Profile)
      requires Valid() && ObjectsValid()
      reads this, profile, joystick
      ensures p == profile[sessionId] && p.Valid()
    {
      GetProfile(sessionId)
    }

    /** `convertSettings`: the in-place rewrite of keys of older releases. */
    method ConvertSettings()
      requires Valid()
      modifies this, settings
      ensures Valid()
      ensures settings.data == ConvertedStore(old(settings.data))
      ensures vals == ConvertedVals(old(settings.data), old(vals))
      ensures profileId == old(profileId) && sessionId == old(sessionId)
      ensures firstUse == old(firstUse) && upgradeFromVersion == old(upgradeFromVersion)
    {
      ConvertWizard();
      ConvertWarning();
      RemoveDeprecated();
    }

    /** The first step of `convertSettings`: `useWizard` becomes `newModelAction` unless that is already set. */
    method ConvertWizard()
      requires Valid()
      modifies this, settings
      ensures Valid()
      ensures settings.data == WizardStore(old(settings.data))
      ensures vals == if UseWizardKey in old(settings.data) && NewModelActionKey !in old(settings.data)
                      then old(vals)[NewModelAction := WizardAction(old(settings.data)[UseWizardKey])] else old(vals)
      ensures profileId == old(profileId) && sessionId == old(sessionId)
      ensures firstUse == old(firstUse) && upgradeFromVersion == old(upgradeFromVersion)
    {
      ConvertedProps();
      if settings.Contains(UseWizardKey) {
        if !settings.Contains(NewModelActionKey) {
          Set(NewModelAction, WizardAction(settings.data[UseWizardKey]));
        }
        settings.Remove(UseWizardKey);
      }
    }

    /** The second step: a `warningId` of 7 is reset. */
    method ConvertWarning()
      requires Valid()
      modifies this, settings
      ensures Valid()
      ensures settings.data == WarningStore(old(settings.data))
      ensures vals == if OldWarning(old(settings.data)) then old(vals)[WarningId := GProp(WarningId).dflt] else old(vals)
      ensures profileId == old(profileId) && sessionId == old(sessionId)
      ensures firstUse == old(firstUse) && upgradeFromVersion == old(upgradeFromVersion)
    {
      ConvertedProps();
      if settings.Contains(WarningIdKey) && ToInt(settings.data[WarningIdKey]) == 7 {
        ResetGlobal(WarningId);
      }
    }

    /** The last step: every key of `deprecatedSettings()` removed, in order. */
    method RemoveDeprecated()
      modifies settings
      ensures settings.data == RemoveTrees(old(settings.data), Deprecated)
    {
      ghost var m := settings.data;
      RemoveTreesNone(m);
      for n := 0 to |Deprecated|
        invariant settings.data == RemoveTrees(m, Deprecated[..n])
      {
        assert Deprecated[..n + 1][..n] == Deprecated[..n];
        settings.Remove(Deprecated[n]);
        RemoveTreesSnoc(m, Deprecated[..n + 1]);
      }
      assert Deprecated[..|Deprecated|] == Deprecated;
    }

    /** The profile loop of `init`: profile `i` loaded under index `i`. */
    method InitProfiles()
      requires ObjectsValid()
      modifies profile
      ensures ObjectsValid()
      ensures forall i :: 0 <= i < |profile| ==>
                profile[i].index == i
                && profile[i].vals == LoadFields(settings.data, Profiles.PathOf(i), Profiles.Prop, Profiles.InitOrder, old(profile[i].vals))
    {
      hide LoadFields;
      ghost var m := settings.data;
      ghost var want := seq(|profile|, k requires 0 <= k < |profile| reads profile =>
                              LoadFields(m, Profiles.PathOf(k), Profiles.Prop, Profiles.InitOrder, profile[k].vals));
      for i := 0 to |profile|
        invariant ObjectsValid() && settings.data == m
        invariant forall k :: 0 <= k < i ==> profile[k].index == k && profile[k].vals == want[k]
        invariant forall k :: i <= k < |profile| ==> profile[k].vals == old(profile[k].vals)
      {
        assert want[i] == LoadFields(m, Profiles.PathOf(i), Profiles.Prop, Profiles.InitOrder, profile[i].vals);
        InitProfile(i);
      }
    }

    /** One step of the profile loop. */
    method InitProfile(i: int)
      requires ObjectsValid() && 0 <= i < |profile|
      modifies profile[i]
      ensures ObjectsValid() && profile[i].index == i
      ensures profile[i].vals == LoadFields(settings.data, Profiles.PathOf(i), Profiles.Prop, Profiles.InitOrder, old(profile[i].vals))
    {
      profile[i].Init(i);
    }

    /** The joystick loop of `init`: joystick `i` loaded under index `i`. */
    method InitJoysticks()
      requires ObjectsValid()
      modifies joystick
      ensures ObjectsValid()
      ensures forall i :: 0 <= i < |joystick| ==>
                joystick[i].index == i
                && joystick[i].vals == LoadFields(settings.data, Joysticks.SettingsPath, Joysticks.PropOf(i), Joysticks.Fields, old(joystick[i].vals))
    {
      hide LoadFields;
      ghost var m := settings.data;
      ghost var want := seq(|joystick|, k requires 0 <= k < |joystick| reads joystick =>
                              LoadFields(m, Joysticks.SettingsPath, Joysticks.PropOf(k), Joysticks.Fields, joystick[k].vals));
      for i := 0 to |joystick|
        invariant ObjectsValid() && settings.data == m
        invariant forall k :: 0 <= k < i ==> joystick[k].index == k && joystick[k].vals == want[k]
        invariant forall k :: i <= k < |joystick| ==> joystick[k].vals == old(joystick[k].vals)
      {
        assert want[i] == LoadFields(m, Joysticks.SettingsPath, Joysticks.PropOf(i), Joysticks.Fields, joystick[i].vals);
        InitJoystick(i);
      }
    }

    /** One step of the joystick loop. */
    method InitJoystick(i: int)
      requires ObjectsValid() && 0 <= i < |joystick|
      modifies joystick[i]
      ensures ObjectsValid() && joystick[i].index == i
      ensures joystick[i].vals == LoadFields(settings.data, Joysticks.SettingsPath, Joysticks.PropOf(i), Joysticks.Fields, old(joystick[i].vals))
    {
      joystick[i].Init(i);
    }

    /**
      `init()`: first use is decided before anything is written; the old
      keys are converted before any object loads; profiles and joysticks
      load from the converted store; the version marker is written; the
      saved profile id is loaded and selected for the session when valid;
      the global properties load last.
    */
    method Init()
      requires Valid() && ObjectsValid()
      modifies this, settings, profile, joystick
      ensures Valid() && ObjectsValid() && HasCurrentSettings()
      ensures firstUse == (SettingsVersionKey !in old(settings.data))
      ensures settings.data == InitStore(old(settings.data))
      ensures forall i :: 0 <= i < |profile| ==>
                profile[i].index == i
                && profile[i].vals == LoadFields(ConvertedStore(old(settings.data)), Profiles.PathOf(i), Profiles.Prop,
                                                 Profiles.InitOrder, old(profile[i].vals))
      ensures forall i :: 0 <= i < |joystick| ==>
                joystick[i].index == i
                && joystick[i].vals == LoadFields(ConvertedStore(old(settings.data)), Joysticks.SettingsPath,
                                                  Joysticks.PropOf(i), Joysticks.Fields, old(joystick[i].vals))
      ensures profileId == LoadValue(settings.data, ProfileIdKey, Int(0), TInt, Int(old(profileId))).i
      ensures sessionId == if 0 <= profileId < Profiles.MAX_PROFILES then profileId else old(sessionId)
      ensures vals == LoadFields(settings.data, "", GProp, GlobalInitOrder, ConvertedVals(old(settings.data), old(vals)))
      ensures upgradeFromVersion == old(upgradeFromVersion)
    {
      // the three steps' contracts are all the proof needs; the store functions' definitions are kept out of it
      hide ConvertedStore, ConvertedVals, LoadFields, LoadValue;
      firstUse := !settings.Contains(SettingsVersionKey);
      ConvertSettings();
      InitObjects();
      InitMarkerAndGlobals();
    }

    /** The profile and joystick loops of `init`. */
    method InitObjects()
      requires ObjectsValid()
      modifies profile, joystick
      ensures ObjectsValid()
      ensures forall i :: 0 <= i < |profile| ==>
                profile[i].index == i
                && profile[i].vals == LoadFields(settings.data, Profiles.PathOf(i), Profiles.Prop, Profiles.InitOrder, old(profile[i].vals))
      ensures forall i :: 0 <= i < |joystick| ==>
                joystick[i].index == i
                && joystick[i].vals == LoadFields(settings.data, Joysticks.SettingsPath, Joysticks.PropOf(i), Joysticks.Fields, old(joystick[i].vals))
    {
      InitProfiles();
      InitJoysticks();
    }

    /**
      The rest of `init`: the version marker, the saved profile id (selected
      for the session when it is a valid index) and the global properties.
    */
    method InitMarkerAndGlobals()
      requires Valid()
      modifies this, settings
      ensures Valid()
      ensures settings.data == MarkVersion(old(settings.data))
      ensures profileId == LoadValue(settings.data, ProfileIdKey, Int(0), TInt, Int(old(profileId))).i
      ensures sessionId == if 0 <= profileId < Profiles.MAX_PROFILES then profileId else old(sessionId)
      ensures vals == LoadFields(settings.data, "", GProp, GlobalInitOrder, old(vals))
      ensures firstUse == old(firstUse) && upgradeFromVersion == old(upgradeFromVersion)
    {
      var marker := settings.GetSet("", Str(""), SettingsVersionKey, Str(SettingsVersion), TStr);
      var pid := settings.Load("", Int(profileId), ProfileIdKey, Int(0), TInt);
      profileId := pid.i;
      SetSessionId(profileId);
      InitGlobals(GlobalInitOrder);
    }

    /** `getActiveProfiles()`: the name of every profile that exists on disk, by index. */
    method GetActiveProfiles() returns (active: map<int, string>)
      requires ObjectsValid()
      ensures forall i :: i in active <==> 0 <= i < Profiles.MAX_PROFILES && Profiles.Exists(settings.data, profile[i].index)
      ensures forall i :: 0 <= i < |profile| && i in active ==> active[i] == profile[i].Get(Profiles.Name).s
    {
      active := map[];
      for i := 0 to Profiles.MAX_PROFILES
        invariant forall k :: k in active <==> 0 <= k < i && Profiles.Exists(settings.data, profile[k].index)
        invariant forall k :: 0 <= k < i && k in active ==> active[k] == profile[k].Get(Profiles.Name).s
      {
        var onDisk := profile[i].ExistsOnDisk();
        if onDisk {
          active := active[i := profile[i].Get(Profiles.Name).s];
        }
      }
    }

    /**
      `findPreviousVersionSettings(&version)` over the stores of the three
      older products: the newest one holding the version marker is
      reported, and every store without the marker is cleared.
    */
    method FindPreviousVersionSettings(s21: SettingsStore, s20: SettingsStore, s1x: SettingsStore)
      returns (found: bool, version: string)
      requires s21 != s20 && s20 != s1x && s21 != s1x
      modifies s21, s20, s1x
      ensures version == PreviousVersion(old(s21.data), old(s20.data), old(s1x.data))
      ensures found <==> version != ""
      ensures s21.data == Probed(old(s21.data)) && s20.data == Probed(old(s20.data)) && s1x.data == Probed(old(s1x.data))
    {
      var fromFound := false;
      version := "";
      if s21.Contains(SettingsVersionKey) {
        fromFound := true;
        version := "2.1";
      } else {
        s21.RemoveAll();
      }
      if s20.Contains(SettingsVersionKey) {
        if !fromFound {
          fromFound := true;
          version := "2.0";
        }
      } else {
        s20.RemoveAll();
      }
      if s1x.Contains(SettingsVersionKey) {
        if !fromFound {
          fromFound := true;
          version := "1.x";
        }
      } else {
        s1x.RemoveAll();
      }
      found := fromFound;
    }

    /**
      `importSettings(fromVersion)`: an unknown label fails and leaves the
      store alone; otherwise every valid, non-excluded key of that release's
      store is copied over, and the label is remembered as the version
      upgraded from.
    */
    method ImportSettings(fromVersion: string, s21: SettingsStore, s20: SettingsStore, s1x: SettingsStore, windows: bool)
      returns (ok: bool)
      requires Valid()
      requires s21 != settings && s20 != settings && s1x != settings
      modifies this, settings
      ensures Valid()
      ensures ok <==> ReleaseOf(fromVersion).Some?
      ensures upgradeFromVersion == if ok then fromVersion else ""
      ensures ok ==> settings.data == ImportedStore(old(settings.data),
                                                    StoreOf(ReleaseOf(fromVersion).value, s21.data, s20.data, s1x.data), windows)
      ensures !ok ==> settings.data == old(settings.data)
      ensures vals == old(vals) && profileId == old(profileId) && sessionId == old(sessionId) && firstUse == old(firstUse)
    {
      upgradeFromVersion := "";
      var from: SettingsStore;
      if fromVersion == "2.1" {
        from := s21;
      } else if fromVersion == "2.0" {
        from := s20;
      } else if fromVersion == "1.x" {
        from := s1x;
      } else {
        return false;
      }
      upgradeFromVersion := fromVersion;
      CopyImportable(from, windows);
      ok := true;
    }

    /** The copy loop of `importSettings`: every valid key of `from` outside the exclusion list, in any order. */
    method CopyImportable(from: SettingsStore, windows: bool)
      requires from != settings
      modifies settings
      ensures settings.data == ImportedStore(old(settings.data), from.data, windows)
    {
      var excludeKeys := Deprecated + ["compilation-server"];
      if windows {
        excludeKeys := excludeKeys + ["avrdude_location", "avrdudeLocation", "dfu_location", "Start Menu Folder", "."];
      }
      assert excludeKeys == Excluded(windows);
      ghost var m0, src := settings.data, from.data;
      var keys := from.data.Keys;
      ghost var done: set<string> := {};
      while keys != {}
        invariant from.data == src
        invariant keys + done == src.Keys && keys !! done
        invariant settings.data == ImportKeys(m0, src, done, windows)
        decreases |keys|
      {
        var key :| key in keys;
        ImportKeysStep(m0, src, done, key, windows);
        var v := from.data[key];
        if v != Invalid && key !in excludeKeys {
          settings.SetValue(key, v);
        }
        assert (keys - {key}) + (done + {key}) == keys + done;
        keys := keys - {key};
        done := done + {key};
      }
      assert done == src.Keys;
    }
  }
}
