/**
  `Profile`: one radio profile, thirty typed properties stored under its own
  directory `Profiles/profile<N>/`, N being the profile's index. The bulk
  operations `init`, `operator=`, `resetFwVariables` and `remove` each call
  the per-property `_init()` or setter of a fixed list of properties.
*/
module Profiles {

  import opened Values
  import opened Paths
  import opened CompStore
  import opened PropertyLists

  const MAX_PROFILES := 15

  /** The properties of a profile, in the order they are declared. */
  datatype Field =
    | Name | SplashFile | FwName | FwType | SdPath | PBackupDir
    | ChannelOrder | DefaultMode | VolumeGain
    | RenameFwFiles | BurnFirmware | PenableBackup
    | SimulatorOpts
    | Beeper | CountryCode | Display | Haptic | Speaker | StickPotCalib | TimeStamp
    | TrainerCalib | ControlTypes | ControlNames
    | GsStickMode | PpmMultiplier | VBatWarn | VBatMin | VBatMax
    | TxCurrentCalibration | TxVoltageCalibration

  /** The declared type of each property. */
  function PTy(f: Field): Ty
  {
    match f
    case Name => TStr
    case SplashFile => TStr
    case FwName => TStr
    case FwType => TStr
    case SdPath => TStr
    case PBackupDir => TStr
    case ChannelOrder => TInt
    case DefaultMode => TInt
    case VolumeGain => TInt
    case RenameFwFiles => TBool
    case BurnFirmware => TBool
    case PenableBackup => TBool
    case SimulatorOpts => TSimOpts
    case Beeper => TStr
    case CountryCode => TStr
    case Display => TStr
    case Haptic => TStr
    case Speaker => TStr
    case StickPotCalib => TStr
    case TimeStamp => TStr
    case TrainerCalib => TStr
    case ControlTypes => TStr
    case ControlNames => TStr
    case GsStickMode => TInt
    case PpmMultiplier => TInt
    case VBatWarn => TInt
    case VBatMin => TInt
    case VBatMax => TInt
    case TxCurrentCalibration => TInt
    case TxVoltageCalibration => TInt
  }

  /** The descriptor of each property: settings key, type and default. */
  function Prop(f: Field): (p: Property)
    ensures WellTyped(p) && p.ty == PTy(f)
  {
    match f
    case Name => Property("Name", TStr, Str(""))
    case SplashFile => Property("SplashFileName", TStr, Str(""))
    case FwName => Property("fwName", TStr, Str(""))
    case FwType => Property("fwType", TStr, Str(""))
    case SdPath => Property("sdPath", TStr, Str(""))
    case PBackupDir => Property("pBackupDir", TStr, Str(""))
    case ChannelOrder => Property("default_channel_order", TInt, Int(0))
    case DefaultMode => Property("default_mode", TInt, Int(1))
    case VolumeGain => Property("volumeGain", TInt, Int(10))
    case RenameFwFiles => Property("rename_firmware_files", TBool, Bool(false))
    case BurnFirmware => Property("burnFirmware", TBool, Bool(false))
    case PenableBackup => Property("penableBackup", TBool, Bool(false))
    case SimulatorOpts => Property("simulatorOptions", TSimOpts, SimOpts(DefaultSimulatorOptions))
    case Beeper => Property("Beeper", TStr, Str(""))
    case CountryCode => Property("countryCode", TStr, Str(""))
    case Display => Property("Display", TStr, Str(""))
    case Haptic => Property("Haptic", TStr, Str(""))
    case Speaker => Property("Speaker", TStr, Str(""))
    case StickPotCalib => Property("StickPotCalib", TStr, Str(""))
    case TimeStamp => Property("TimeStamp", TStr, Str(""))
    case TrainerCalib => Property("TrainerCalib", TStr, Str(""))
    case ControlTypes => Property("ControlTypes", TStr, Str(""))
    case ControlNames => Property("ControlNames", TStr, Str(""))
    case GsStickMode => Property("GSStickMode", TInt, Int(0))
    case PpmMultiplier => Property("PPM_Multiplier", TInt, Int(0))
    case VBatWarn => Property("vBatWarn", TInt, Int(0))
    case VBatMin => Property("VbatMin", TInt, Int(0))
    case VBatMax => Property("VbatMax", TInt, Int(0))
    case TxCurrentCalibration => Property("currentCalib", TInt, Int(0))
    case TxVoltageCalibration => Property("VbatCalib", TInt, Int(0))
  }

  /** The order of the `_init()` calls in `Profile::init`. */
  const InitOrder: seq<Field> := [
    Name, FwName, FwType, SdPath, PBackupDir, SplashFile,
    ChannelOrder, DefaultMode, VolumeGain, BurnFirmware, PenableBackup, RenameFwFiles,
    SimulatorOpts,
    Beeper, CountryCode, Display, Haptic, Speaker, StickPotCalib, TimeStamp,
    TrainerCalib, ControlTypes, ControlNames, GsStickMode, PpmMultiplier,
    VBatWarn, VBatMin, VBatMax, TxCurrentCalibration, TxVoltageCalibration]

  /** The order of the setter calls in `Profile::operator=`; the time stamp is not copied. */
  const AssignOrder: seq<Field> := [
    Name, FwName, FwType, SdPath, PBackupDir, SplashFile,
    ChannelOrder, DefaultMode, VolumeGain, BurnFirmware, PenableBackup, RenameFwFiles,
    Beeper, CountryCode, Display, Haptic, Speaker, StickPotCalib,
    TrainerCalib, ControlTypes, ControlNames, GsStickMode, PpmMultiplier,
    VBatWarn, VBatMin, VBatMax, TxCurrentCalibration, TxVoltageCalibration,
    SimulatorOpts]

  /** The firmware-dependent properties, in the order `Profile::resetFwVariables` resets them. */
  const FwOrder: seq<Field> := [
    Beeper, CountryCode, Display, Haptic, Speaker, StickPotCalib, TimeStamp,
    TrainerCalib, ControlTypes, ControlNames, TxCurrentCalibration, GsStickMode,
    PpmMultiplier, TxVoltageCalibration, VBatWarn, VBatMin, VBatMax]

  /** The position of `f` in `InitOrder`. */
  function Position(f: Field): (n: nat)
    ensures n < |InitOrder| && InitOrder[n] == f
  {
    match f
    case Name => 0
    case FwName => 1
    case FwType => 2
    case SdPath => 3
    case PBackupDir => 4
    case SplashFile => 5
    case ChannelOrder => 6
    case DefaultMode => 7
    case VolumeGain => 8
    case BurnFirmware => 9
    case PenableBackup => 10
    case RenameFwFiles => 11
    case SimulatorOpts => 12
    case Beeper => 13
    case CountryCode => 14
    case Display => 15
    case Haptic => 16
    case Speaker => 17
    case StickPotCalib => 18
    case TimeStamp => 19
    case TrainerCalib => 20
    case ControlTypes => 21
    case ControlNames => 22
    case GsStickMode => 23
    case PpmMultiplier => 24
    case VBatWarn => 25
    case VBatMin => 26
    case VBatMax => 27
    case TxCurrentCalibration => 28
    case TxVoltageCalibration => 29
  }

  /** `init` reads every property. */
  lemma InitOrderComplete()
    ensures forall f :: f in InitOrder
  {
    forall f ensures f in InitOrder {
      assert InitOrder[Position(f)] == f;
    }
  }

  /** `operator=` copies every property but the time stamp. */
  lemma AssignOrderComplete()
    ensures forall f :: f in AssignOrder <==> f != TimeStamp
  {
  }

  /** `Profile::settingsPath()`. */
  function PathOf(index: int): (dir: string)
    ensures EndsWithSlash(dir)
  {
    "Profiles/profile" + IntToString(index) + "/"
  }

  /** The full settings key of property `f` of profile `index`. */
  function KeyPath(index: int, f: Field): string
  {
    FieldPath(PathOf(index), Prop, f)
  }

  /** `existsOnDisk()`: the profile's `Name` key is stored. */
  predicate Exists(m: Store, index: int)
  {
    KeyPath(index, Name) in m
  }

  /** Every key is a single non-empty path component. */
  lemma KeyShape(f: Field)
    ensures Prop(f).key != "" && '/' !in Prop(f).key
  {
    NoSlashA();
    NoSlashB();
    NoSlashC();
    NoSlashD();
  }

  lemma NoSlashA()
    ensures '/' !in "Name"
         && '/' !in "SplashFileName"
         && '/' !in "fwName"
         && '/' !in "fwType"
         && '/' !in "sdPath"
         && '/' !in "pBackupDir"
         && '/' !in "default_channel_order"
         && '/' !in "default_mode"
  {
  }

  lemma NoSlashB()
    ensures '/' !in "volumeGain"
         && '/' !in "rename_firmware_files"
         && '/' !in "burnFirmware"
         && '/' !in "penableBackup"
         && '/' !in "simulatorOptions"
         && '/' !in "Beeper"
         && '/' !in "countryCode"
         && '/' !in "Display"
  {
  }

  lemma NoSlashC()
    ensures '/' !in "Haptic"
         && '/' !in "Speaker"
         && '/' !in "StickPotCalib"
         && '/' !in "TimeStamp"
         && '/' !in "TrainerCalib"
         && '/' !in "ControlTypes"
         && '/' !in "ControlNames"
  {
  }

  lemma NoSlashD()
    ensures '/' !in "GSStickMode"
         && '/' !in "PPM_Multiplier"
         && '/' !in "vBatWarn"
         && '/' !in "VbatMin"
         && '/' !in "VbatMax"
         && '/' !in "currentCalib"
         && '/' !in "VbatCalib"
  {
  }

  /** Different properties have different keys. */
  lemma KeysDiffer(f: Field, g: Field)
    requires f != g
    ensures Prop(f).key != Prop(g).key
  {
    if PTy(f) == TStr && Position(f) < 15 {
      EarlyStrKeysDiffer(f, g);
    } else if PTy(f) == TStr {
      LateStrKeysDiffer(f, g);
    } else if PTy(f) == TInt {
      IntKeysDiffer(f, g);
    } else {
      OtherKeysDiffer(f, g);
    }
  }

  /** `KeysDiffer` for the string properties `init` reads first. */
  lemma EarlyStrKeysDiffer(f: Field, g: Field)
    requires f != g && PTy(f) == TStr && Position(f) < 15
    ensures Prop(f).key != Prop(g).key
  {
  }

  /** `KeysDiffer` for the string properties `init` reads last. */
  lemma LateStrKeysDiffer(f: Field, g: Field)
    requires f != g && PTy(f) == TStr && Position(f) >= 15
    ensures Prop(f).key != Prop(g).key
  {
  }

  /** `KeysDiffer` for the int properties. */
  lemma IntKeysDiffer(f: Field, g: Field)
    requires f != g && PTy(f) == TInt
    ensures Prop(f).key != Prop(g).key
  {
  }

  /** `KeysDiffer` for the bool properties and the simulator options. */
  lemma OtherKeysDiffer(f: Field, g: Field)
    requires f != g && (PTy(f) == TBool || PTy(f) == TSimOpts)
    ensures Prop(f).key != Prop(g).key
  {
  }

  /** Every list of profile properties satisfies the key layout of a settings object. */
  lemma Separate(index: int, order: seq<Field>)
    ensures SeparateKeys(PathOf(index), Prop, order)
  {
    forall f ensures Prop(f).key != "" && '/' !in Prop(f).key {
      KeyShape(f);
    }
    forall f, g | f != g ensures Prop(f).key != Prop(g).key {
      KeysDiffer(f, g);
    }
  }

  /** The directories of two different profiles share no key, so removing one never touches the other. */
  lemma ProfilesDisjoint(i: int, j: int, k: string)
    requires i != j
    ensures !(UnderPath(k, PathOf(i)) && UnderPath(k, PathOf(j)))
  {
    if IntToString(i) == IntToString(j) {
      IntToStringInjective(i, j);
    }
    DisjointDirectories("Profiles/profile", IntToString(i), IntToString(j), k);
  }

  /** A profile's properties, each of its declared type. */
  predicate WellTypedVals(vals: map<Field, Value>)
  {
    forall f :: f in vals && HasType(vals[f], PTy(f))
  }

  /** Replacing one property by a value of its declared type keeps the map well typed. */
  lemma UpdateWellTyped(vals: map<Field, Value>, f: Field, v: Value)
    requires WellTypedVals(vals) && HasType(v, PTy(f))
    ensures WellTypedVals(vals[f := v])
  {
  }

  /** Every property key of a profile lies inside the profile's directory. */
  lemma KeyInDirectory(index: int, f: Field, k: string)
    requires UnderPath(k, KeyPath(index, f))
    ensures UnderPath(k, PathOf(index))
  {
    KeyShape(f);
    UnderNested(PathOf(index), Prop(f).key, k);
  }

  /** After `init` each property holds what its own key loads to, starting from its previous value. */
  lemma InitEffect(m: Store, index: int, prev: map<Field, Value>)
    requires WellTypedVals(prev)
    ensures var r := LoadFields(m, PathOf(index), Prop, InitOrder, prev);
            WellTypedVals(r)
            && forall f :: r[f] == LoadValue(m, KeyPath(index, f), Prop(f).dflt, Prop(f).ty, prev[f])
  {
    InitOrderComplete();
    forall f ensures LoadFields(m, PathOf(index), Prop, InitOrder, prev)[f]
                     == LoadValue(m, KeyPath(index, f), Prop(f).dflt, Prop(f).ty, prev[f]) {
      LoadFieldsAt(m, PathOf(index), Prop, InitOrder, prev, f);
    }
  }

  /**
    What `remove` leaves: the profile no longer exists on disk, the
    re-initialised profile holds every default, and no key outside the
    profile's directory (in particular no key of another profile) changed.
  */
  lemma RemoveEffect(m: Store, index: int, prev: map<Field, Value>)
    requires WellTypedVals(prev)
    ensures var m' := RemoveTree(m, PathOf(index));
            var r := LoadFields(m', PathOf(index), Prop, InitOrder, prev);
            !Exists(m', index) && (forall f :: r[f] == Prop(f).dflt)
    ensures forall k :: !UnderPath(k, PathOf(index)) ==>
              var m' := RemoveTree(m, PathOf(index));
              (k in m' <==> k in m) && (k in m' ==> m'[k] == m[k])
    ensures forall j, k :: j != index && UnderPath(k, PathOf(j)) ==>
              var m' := RemoveTree(m, PathOf(index));
              (k in m' <==> k in m) && (k in m' ==> m'[k] == m[k])
  {
    var m' := RemoveTree(m, PathOf(index));
    InitEffect(m', index, prev);
    forall f ensures KeyPath(index, f) !in m' {
      UnderItself(KeyPath(index, f));
      KeyInDirectory(index, f, KeyPath(index, f));
    }
    forall j, k | j != index && UnderPath(k, PathOf(j)) ensures !UnderPath(k, PathOf(index)) {
      ProfilesDisjoint(index, j, k);
    }
  }

  /**
    What `operator=` leaves: every property but the time stamp holds the
    value of the source profile; the time stamp keeps its own value.
  */
  lemma AssignValues(vals: map<Field, Value>, src: map<Field, Value>)
    requires WellTypedVals(vals) && WellTypedVals(src)
    ensures var r := SetFields(vals, Prop, AssignOrder, src);
            WellTypedVals(r) && forall f :: r[f] == if f == TimeStamp then vals[f] else src[f]
  {
    AssignOrderComplete();
    forall f ensures SetFields(vals, Prop, AssignOrder, src)[f] == if f == TimeStamp then vals[f] else src[f] {
      SetFieldsAt(vals, Prop, AssignOrder, src, f);
    }
  }

  /**
    The storage effect of `operator=`: the key of every copied property is
    present exactly when the copied value differs from the default, and then
    holds it; the time-stamp key and every key outside the directory are kept.
  */
  lemma AssignStore(m: Store, index: int, src: map<Field, Value>)
    requires WellTypedVals(src)
    ensures var d := StoreFields(m, PathOf(index), Prop, AssignOrder, src);
            forall f :: f != TimeStamp ==>
              (KeyPath(index, f) in d <==> src[f] != Prop(f).dflt)
              && (KeyPath(index, f) in d ==> d[KeyPath(index, f)] == src[f])
    ensures var d := StoreFields(m, PathOf(index), Prop, AssignOrder, src);
            forall k :: (!UnderPath(k, PathOf(index)) || k == KeyPath(index, TimeStamp)) ==>
              (k in d <==> k in m) && (k in d ==> d[k] == m[k])
  {
    AssignOrderComplete();
    Separate(index, AssignOrder);
    forall f | f != TimeStamp
      ensures var d := StoreFields(m, PathOf(index), Prop, AssignOrder, src);
              (KeyPath(index, f) in d <==> src[f] != Prop(f).dflt)
              && (KeyPath(index, f) in d ==> d[KeyPath(index, f)] == src[f])
    {
      StoreFieldsAt(m, PathOf(index), Prop, AssignOrder, src, f);
    }
    forall k | !UnderPath(k, PathOf(index)) || k == KeyPath(index, TimeStamp)
      ensures var d := StoreFields(m, PathOf(index), Prop, AssignOrder, src);
              (k in d <==> k in m) && (k in d ==> d[k] == m[k])
    {
      forall f | f in AssignOrder ensures !UnderPath(k, FieldPath(PathOf(index), Prop, f)) {
        if k == KeyPath(index, TimeStamp) {
          KeyShape(f);
          KeyShape(TimeStamp);
          KeysDiffer(TimeStamp, f);
          SiblingsDisjoint(PathOf(index), Prop(TimeStamp).key, Prop(f).key);
        } else if UnderPath(k, KeyPath(index, f)) {
          KeyInDirectory(index, f, k);
        }
      }
      StoreFieldsFrame(m, PathOf(index), Prop, AssignOrder, src, k);
    }
  }

  /** Loading a copied property back from the store gives the value copied, whatever the reader held before. */
  lemma AssignThenLoad(m: Store, index: int, src: map<Field, Value>, f: Field, before: Value)
    requires WellTypedVals(src) && f != TimeStamp
    ensures LoadValue(StoreFields(m, PathOf(index), Prop, AssignOrder, src), KeyPath(index, f), Prop(f).dflt, Prop(f).ty, before)
            == src[f]
  {
    AssignStore(m, index, src);
  }

  /** What `resetFwVariables` leaves in the properties: the firmware ones at their defaults, the others as they were. */
  lemma ResetFwValues(vals: map<Field, Value>)
    requires WellTypedVals(vals)
    ensures var r := SetFields(vals, Prop, FwOrder, map[]);
            WellTypedVals(r) && forall f :: r[f] == if f in FwOrder then Prop(f).dflt else vals[f]
  {
    forall f ensures SetFields(vals, Prop, FwOrder, map[])[f] == if f in FwOrder then Prop(f).dflt else vals[f] {
      SetFieldsAt(vals, Prop, FwOrder, map[], f);
    }
  }

  /** `resetFwVariables` removes the key of every firmware property. */
  lemma ResetFwStore(m: Store, index: int)
    ensures var d := StoreFields(m, PathOf(index), Prop, FwOrder, map[]);
            forall f :: f in FwOrder ==> KeyPath(index, f) !in d
  {
    Separate(index, FwOrder);
    forall f | f in FwOrder ensures KeyPath(index, f) !in StoreFields(m, PathOf(index), Prop, FwOrder, map[]) {
      StoreFieldsAt(m, PathOf(index), Prop, FwOrder, map[], f);
    }
  }

  /** `resetFwVariables` keeps the key of every other property, and every key outside the directory. */
  lemma ResetFwFrame(m: Store, index: int, k: string)
    requires !UnderPath(k, PathOf(index)) || exists g :: g !in FwOrder && k == KeyPath(index, g)
    ensures var d := StoreFields(m, PathOf(index), Prop, FwOrder, map[]);
            (k in d <==> k in m) && (k in d ==> d[k] == m[k])
  {
    forall f | f in FwOrder ensures !UnderPath(k, FieldPath(PathOf(index), Prop, f)) {
      if UnderPath(k, PathOf(index)) {
        var g :| g !in FwOrder && k == KeyPath(index, g);
        KeyShape(f);
        KeyShape(g);
        KeysDiffer(g, f);
        SiblingsDisjoint(PathOf(index), Prop(g).key, Prop(f).key);
      } else if UnderPath(k, KeyPath(index, f)) {
        KeyInDirectory(index, f, k);
      }
    }
    StoreFieldsFrame(m, PathOf(index), Prop, FwOrder, map[], k);
  }

  /** Storing a name makes the profile exist on disk exactly when the name is not empty. */
  lemma ExistsAfterSetName(m: Store, index: int, name: string)
    ensures Exists(StoreOrOmit(m, KeyPath(index, Name), Prop(Name).dflt, Str(name)), index) <==> name != ""
  {
  }

  class Profile {
    const settings: SettingsStore
    var index: int
    var vals: map<Field, Value>

    ghost predicate Valid()
      reads this
    {
      WellTypedVals(vals)
    }

    /** `Profile()`: index -1; the properties are not initialised, so each holds the zero value of its type. */
    constructor (settings: SettingsStore)
      ensures Valid() && this.settings == settings && index == -1
      ensures forall f :: vals[f] == ZeroOf(PTy(f))
    {
      this.settings := settings;
      index := -1;
      vals := map f | f in InitOrder :: ZeroOf(PTy(f));
      InitOrderComplete();
    }

    /** The getter of property `f`. */
    function Get(f: Field): (v: Value)
      requires Valid()
      reads this
      ensures HasType(v, Prop(f).ty)
    {
      vals[f]
    }

    /** `settingsPath()`. */
    function SettingsPath(): (dir: string)
      reads this
      ensures EndsWithSlash(dir)
    {
      PathOf(index)
    }

    /** The `PROPERTY4` setter of property `f`. */
    method Set(f: Field, v: Value, store: bool := true)
      requires Valid() && HasType(v, Prop(f).ty)
      modifies this, settings
      ensures Valid() && index == old(index) && vals == old(vals)[f := v]
      ensures settings.data == if store then StoreOrOmit(old(settings.data), KeyPath(index, f), Prop(f).dflt, v)
                               else old(settings.data)
    {
      vals := vals[f := v];
      if store {
        settings.StoreProperty(PathOf(index), Prop(f), v);
      }
    }

    /** `<name>Reset(store)`. */
    method ResetField(f: Field, store: bool := true)
      requires Valid()
      modifies this, settings
      ensures Valid() && index == old(index) && vals == old(vals)[f := Prop(f).dflt]
      ensures settings.data == if store then RemoveTree(old(settings.data), KeyPath(index, f)) else old(settings.data)
    {
      Set(f, Prop(f).dflt, store);
    }

    /** `<name>_init()`. */
    method InitField(f: Field)
      requires Valid()
      modifies this
      ensures Valid() && index == old(index)
      ensures vals == old(vals)[f := LoadValue(settings.data, KeyPath(index, f), Prop(f).dflt, Prop(f).ty, old(vals)[f])]
    {
      var p := Prop(f);
      assert HasType(vals[f], p.ty) && HasType(p.dflt, p.ty);
      var v := settings.Load(PathOf(index), vals[f], p.key, p.dflt, p.ty);
      UpdateWellTyped(vals, f, v);
      vals := vals[f := v];
    }

    /** The `_init()` of each property of `order`, in order. */
    method InitFields(order: seq<Field>)
      requires Valid()
      modifies this
      ensures Valid() && index == old(index)
      ensures vals == LoadFields(settings.data, PathOf(index), Prop, order, old(vals))
    {
      for n := 0 to |order|
        invariant Valid() && index == old(index)
        invariant vals == LoadFields(settings.data, PathOf(index), Prop, order[..n], old(vals))
      {
        assert order[..n + 1][..n] == order[..n];
        InitField(order[n]);
      }
      assert order[..|order|] == order;
    }

    /** `Profile::init(newIndex)`: every property loaded from its key under the new index. */
    method Init(newIndex: int)
      requires Valid()
      modifies this
      ensures Valid() && index == newIndex
      ensures vals == LoadFields(settings.data, PathOf(newIndex), Prop, InitOrder, old(vals))
    {
      index := newIndex;
      InitFields(InitOrder);
    }

    /** The setter of each property of `order`, in order, called with the value `rhs` holds. */
    method AssignFields(rhs: Profile, order: seq<Field>)
      requires Valid() && rhs.Valid()
      modifies this, settings
      ensures Valid() && index == old(index)
      ensures vals == SetFields(old(vals), Prop, order, old(rhs.vals))
      ensures settings.data == StoreFields(old(settings.data), PathOf(index), Prop, order, old(rhs.vals))
    {
      ghost var src := rhs.vals;
      for n := 0 to |order|
        invariant Valid() && index == old(index)
        invariant vals == SetFields(old(vals), Prop, order[..n], src)
        invariant settings.data == StoreFields(old(settings.data), PathOf(index), Prop, order[..n], src)
        invariant rhs != this ==> rhs.vals == src
        invariant rhs == this ==> vals == src
      {
        assert order[..n + 1][..n] == order[..n];
        var f := order[n];
        Set(f, rhs.vals[f]);
      }
      assert order[..|order|] == order;
    }

    /** `Profile::operator=`: every property but the time stamp copied from `rhs` through its setter; the index stays. */
    method Assign(rhs: Profile)
      requires Valid() && rhs.Valid()
      modifies this, settings
      ensures Valid() && index == old(index)
      ensures vals == SetFields(old(vals), Prop, AssignOrder, old(rhs.vals))
      ensures settings.data == StoreFields(old(settings.data), PathOf(index), Prop, AssignOrder, old(rhs.vals))
    {
      AssignFields(rhs, AssignOrder);
    }

    /** The `<name>Reset()` of each property of `order`, in order. */
    method ResetFields(order: seq<Field>)
      requires Valid()
      modifies this, settings
      ensures Valid() && index == old(index)
      ensures vals == SetFields(old(vals), Prop, order, map[])
      ensures settings.data == StoreFields(old(settings.data), PathOf(index), Prop, order, map[])
    {
      for n := 0 to |order|
        invariant Valid() && index == old(index)
        invariant vals == SetFields(old(vals), Prop, order[..n], map[])
        invariant settings.data == StoreFields(old(settings.data), PathOf(index), Prop, order[..n], map[])
      {
        assert order[..n + 1][..n] == order[..n];
        ResetField(order[n]);
      }
      assert order[..|order|] == order;
    }

    /** `Profile::remove()`: the profile's whole directory removed, then `init` with the same index. */
    method Remove()
      requires Valid()
      modifies this, settings
      ensures Valid() && index == old(index)
      ensures settings.data == RemoveTree(old(settings.data), PathOf(index))
      ensures vals == LoadFields(settings.data, PathOf(index), Prop, InitOrder, old(vals))
    {
      settings.Remove(PathOf(index));
      Init(index);
    }

    /** `Profile::existsOnDisk()`. */
    method ExistsOnDisk() returns (b: bool)
      ensures b == Exists(settings.data, index)
    {
      b := settings.Contains(PathOf(index) + "Name");
    }

    /** `Profile::resetFwVariables()`: the firmware properties back to their defaults, in the source's order. */
    method ResetFwVariables()
      requires Valid()
      modifies this, settings
      ensures Valid() && index == old(index)
      ensures vals == SetFields(old(vals), Prop, FwOrder, map[])
      ensures settings.data == StoreFields(old(settings.data), PathOf(index), Prop, FwOrder, map[])
    {
      ResetFields(FwOrder);
    }
  }
}
