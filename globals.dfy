/**
  The application-wide properties of `AppData`, stored at the top level of
  the settings (their settings path is empty): descriptors and the order in
  which `AppData::init` loads them. The model carries a representative
  subset of the globals: one or more of each stored type, and every global
  the settings conversion and the import treat specially.
*/
module Globals {

  import opened Values
  import opened CompStore

  /** The modelled global properties, in the order they are declared. */
  datatype Global =
    | RecentFiles | MainWinGeo | ArmMcu | AvrdudeLocation | DfuLocation | SambaPort | Locale
    | NewModelAction | EmbedSplashes | HistorySize | Theme | WarningId
    | JsSupport | ShowSplash | SimuDbgFilters | SimuLastProfId

  /** The declared type of each global property. */
  function GTy(g: Global): Ty
  {
    match g
    case RecentFiles => TStrList
    case MainWinGeo => TBytes
    case ArmMcu => TStr
    case AvrdudeLocation => TStr
    case DfuLocation => TStr
    case SambaPort => TStr
    case Locale => TStr
    case NewModelAction => TInt
    case EmbedSplashes => TInt
    case HistorySize => TInt
    case Theme => TInt
    case WarningId => TInt
    case JsSupport => TBool
    case ShowSplash => TBool
    case SimuDbgFilters => TStrList
    case SimuLastProfId => TInt
  }

  /** The descriptor of each global property: settings key, type and default. */
  function GProp(g: Global): (p: Property)
    ensures WellTyped(p) && p.ty == GTy(g)
  {
    match g
    case RecentFiles => Property("recentFileList", TStrList, StrList([]))
    case MainWinGeo => Property("mainWindowGeometry", TBytes, Bytes([]))
    case ArmMcu => Property("arm_mcu", TStr, Str("at91sam3s4-9x"))
    case AvrdudeLocation => Property("avrdudeLocation", TStr, Str(""))
    case DfuLocation => Property("dfu_location", TStr, Str(""))
    case SambaPort => Property("samba_port", TStr, Str("\\USBserial\\COM23"))
    case Locale => Property("locale", TStr, Str(""))
    case NewModelAction => Property("newModelAction", TInt, Int(1))
    case EmbedSplashes => Property("embedded_splashes", TInt, Int(0))
    case HistorySize => Property("history_size", TInt, Int(10))
    case Theme => Property("theme", TInt, Int(1))
    case WarningId => Property("warningId", TInt, Int(0))
    case JsSupport => Property("js_support", TBool, Bool(false))
    case ShowSplash => Property("show_splash", TBool, Bool(true))
    case SimuDbgFilters => Property("simuDbgFilters", TStrList, StrList([]))
    case SimuLastProfId => Property("simuLastProfId", TInt, Int(-1))
  }

  /** The order of the `_init()` calls of these properties in `AppData::init`. */
  const GlobalInitOrder: seq<Global> :=
    [ RecentFiles, SimuDbgFilters, MainWinGeo, ArmMcu, AvrdudeLocation, DfuLocation, Locale, SambaPort,
      NewModelAction, EmbedSplashes, HistorySize, Theme, WarningId, SimuLastProfId, JsSupport, ShowSplash ]

  /** The position of `g` in `GlobalInitOrder`. */
  function Rank(g: Global): (n: nat)
    ensures n < |GlobalInitOrder| && GlobalInitOrder[n] == g
  {
    match g
    case RecentFiles => 0
    case MainWinGeo => 2
    case ArmMcu => 3
    case AvrdudeLocation => 4
    case DfuLocation => 5
    case SambaPort => 7
    case Locale => 6
    case NewModelAction => 8
    case EmbedSplashes => 9
    case HistorySize => 10
    case Theme => 11
    case WarningId => 12
    case JsSupport => 14
    case ShowSplash => 15
    case SimuDbgFilters => 1
    case SimuLastProfId => 13
  }

  /** `init` loads every global property. */
  lemma GlobalInitOrderComplete()
    ensures forall g :: g in GlobalInitOrder
  {
    forall g ensures g in GlobalInitOrder {
      assert GlobalInitOrder[Rank(g)] == g;
    }
  }

  /** The global properties, each of its declared type. */
  predicate WellTypedGlobals(vals: map<Global, Value>)
  {
    forall g :: g in vals && HasType(vals[g], GTy(g))
  }

  /** Replacing one global by a value of its declared type keeps the map well typed. */
  lemma UpdateWellTyped(vals: map<Global, Value>, g: Global, v: Value)
    requires WellTypedGlobals(vals) && HasType(v, GTy(g))
    ensures WellTypedGlobals(vals[g := v])
  {
  }

  /**
    The global properties of a freshly constructed `AppData`: `AppData()`
    initialises none of them, so each holds the zero value of its type, not
    its declared default, until `init` loads it.
  */
  function InitialGlobals(): (vals: map<Global, Value>)
    ensures WellTypedGlobals(vals)
    ensures forall g :: vals[g] == ZeroOf(GTy(g))
  {
    GlobalInitOrderComplete();
    map g | g in GlobalInitOrder :: ZeroOf(GTy(g))
  }

  /** The two descriptors the settings conversion relies on. */
  lemma ConvertedProps()
    ensures GProp(NewModelAction) == Property("newModelAction", TInt, Int(1))
    ensures GProp(WarningId) == Property("warningId", TInt, Int(0))
  {
  }
}
