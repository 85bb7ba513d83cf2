/**
 * The enumerations the wallbox reports and the product catalogue
 * (custom_components/garo_wallbox/garo/const.py).
 */
module Const {
  import opened Wrappers
  import opened Json

  /** State of the charging connector; each member's wire value is its own name. */
  datatype Connector =
    Changing
    | NotConnected
    | Connected
    | SearchComm
    | RcdFault
    | Charging
    | ChargingPaused
    | ChargingFinished
    | ChargingCancelled
    | Disabled
    | Overheat
    | CriticalTemperature
    | Initialization
    | CableFault
    | LockFault
    | ContactorFault
    | VentFault
    | DcError
    | DcHardware
    | CpFault
    | CpShorted
    | RemoteDisabled
    | Unknown
    | Unavailable
  {
    /** The string the wallbox sends for this state. */
    function Value(): string {
      match this
      case Changing => "CHANGING"
      case NotConnected => "NOT_CONNECTED"
      case Connected => "CONNECTED"
      case SearchComm => "SEARCH_COMM"
      case RcdFault => "RCD_FAULT"
      case Charging => "CHARGING"
      case ChargingPaused => "CHARGING_PAUSED"
      case ChargingFinished => "CHARGING_FINISHED"
      case ChargingCancelled => "CHARGING_CANCELLED"
      case Disabled => "DISABLED"
      case Overheat => "OVERHEAT"
      case CriticalTemperature => "CRITICAL_TEMPERATURE"
      case Initialization => "INITIALIZATION"
      case CableFault => "CABLE_FAULT"
      case LockFault => "LOCK_FAULT"
      case ContactorFault => "CONTACTOR_FAULT"
      case VentFault => "VENT_FAULT"
      case DcError => "DC_ERROR"
      case DcHardware => "DC_HARDWARE"
      case CpFault => "CP_FAULT"
      case CpShorted => "CP_SHORTED"
      case RemoteDisabled => "REMOTE_DISABLED"
      case Unknown => "UNKNOWN"
      case Unavailable => "UNAVAILABLE"
    }
  }

  /** Every connector state, in declaration order. */
  const AllConnectors: seq<Connector> := [
    Changing,
    NotConnected,
    Connected,
    SearchComm,
    RcdFault,
    Charging,
    ChargingPaused,
    ChargingFinished,
    ChargingCancelled,
    Disabled,
    Overheat,
    CriticalTemperature,
    Initialization,
    CableFault,
    LockFault,
    ContactorFault,
    VentFault,
    DcError,
    DcHardware,
    CpFault,
    CpShorted,
    RemoteDisabled,
    Unknown,
    Unavailable
  ]

  /**
   * The first of `members` whose wire value is `s`, as Python's enum lookup
   * by value finds the member carrying it.
   */
  function FindConnector(s: string, members: seq<Connector>): (r: Option<Connector>)
    ensures r.Some? ==> r.value in members && r.value.Value() == s
    ensures r.None? ==> forall c | c in members :: c.Value() != s
    decreases |members|
  {
    if members == [] then None
    else if members[0].Value() == s then Some(members[0])
    else FindConnector(s, members[1..])
  }

  /** Python's `Connector(v)`: the member whose value equals `v`, if any. */
  function ConnectorFromJson(v: Value): (r: Option<Connector>)
    ensures r.Some? ==> v == Str(r.value.Value())
  {
    if v.Str? then FindConnector(v.s, AllConnectors) else None
  }

  /** Charging mode. */
  datatype Mode = On | Off | Schema {
    function Value(): string {
      match this
      case On => "ALWAYS_ON"
      case Off => "ALWAYS_OFF"
      case Schema => "SCHEMA"
    }
  }

  /** Python's `Mode(v)`. */
  function ModeFromJson(v: Value): (r: Option<Mode>)
    ensures r == Some(On) <==> v == Str("ALWAYS_ON")
    ensures r == Some(Off) <==> v == Str("ALWAYS_OFF")
    ensures r == Some(Schema) <==> v == Str("SCHEMA")
  {
    if !v.Str? then None
    else
      match v.s
      case "ALWAYS_ON" => Some(On)
      case "ALWAYS_OFF" => Some(Off)
      case "SCHEMA" => Some(Schema)
      case _ => None
  }

  /** Power state reported by the wallbox. */
  datatype PowerMode = PowerOn | PowerOff | PowerUnknown | PowerUnavailable {
    function Value(): string {
      match this
      case PowerOn => "ON"
      case PowerOff => "OFF"
      case PowerUnknown => "UNKNOWN"
      case PowerUnavailable => "UNAVAILABLE"
    }
  }

  /** Python's `PowerMode(v)`. */
  function PowerModeFromJson(v: Value): (r: Option<PowerMode>)
    ensures r.Some? <==> v in {Str("ON"), Str("OFF"), Str("UNKNOWN"), Str("UNAVAILABLE")}
    ensures r.Some? ==> v == Str(r.value.Value())
  {
    if !v.Str? then None
    else
      match v.s
      case "ON" => Some(PowerOn)
      case "OFF" => Some(PowerOff)
      case "UNKNOWN" => Some(PowerUnknown)
      case "UNAVAILABLE" => Some(PowerUnavailable)
      case _ => None
  }

  /** Cable lock setting of a charging unit; its wire value is an integer code. */
  datatype CableLockMode = Unlocked | Locked | LockedWithPowerLossUnlock {
    function Value(): int {
      match this
      case Unlocked => 0
      case Locked => 2
      case LockedWithPowerLossUnlock => 1
    }
  }

  /**
   * Python's `CableLockMode(v)`: the enum's value table is a dictionary, so a
   * boolean or a float equal to a code finds that code's member.
   */
  function CableLockModeFromJson(v: Value): (r: Option<CableLockMode>)
    ensures r.Some? <==> AsNumber(v) in {Some(0.0), Some(1.0), Some(2.0)}
    ensures r.Some? ==> AsNumber(v) == Some(r.value.Value() as real)
  {
    match AsNumber(v)
    case Some(n) =>
      if n == 0.0 then Some(Unlocked)
      else if n == 1.0 then Some(LockedWithPowerLossUnlock)
      else if n == 2.0 then Some(Locked)
      else None
    case None => None
  }

  /** A catalogue entry; the three flags default to false as in the source's constructor. */
  datatype ProductInfo = ProductInfo(
    name: string,
    hasMeter: bool := false,
    is3Phase: bool := false,
    hasOutlet: bool := false)

  /**
   * The product catalogue, keyed by the product id the wallbox reports. It is
   * written in four blocks of ascending ids so that the verifier can
   * enumerate each block's keys; the map is their union.
   */
  const ProductMap: map<int, ProductInfo> := ProductBlock1 + ProductBlock2 + ProductBlock3 + ProductBlock4

  const ProductBlock1: map<int, ProductInfo> := map[
    1 := ProductInfo("GLBMW-T137FC", true, false, false),
    2 := ProductInfo("GLBMW-T237FC", true, false, false),
    3 := ProductInfo("GLBMW-T237WO", true, false, true),
    4 := ProductInfo("GLBW-T174FC-B", false, false, false),
    5 := ProductInfo("GLBW-T274FC-B", false, false, false),
    6 := ProductInfo("GLBMW-T274WO", true, false, true),
    7 := ProductInfo("GLBW-T137FC", false, false, false),
    8 := ProductInfo("GLBW-T237FC", false, false, false),
    9 := ProductInfo("GLBW-T237WO", false, false, true),
    10 := ProductInfo("GLBW-T174FC", false, false, false),
    11 := ProductInfo("GLBW-T274FC", false, false, false),
    12 := ProductInfo("GLBM-T274WO", true, false, true),
    13 := ProductInfo("GLBW-T222FC", false, true, false),
    14 := ProductInfo("GLBW-T222FC-B", false, true, false),
    15 := ProductInfo("GLBW-T222WO", false, true, true),
    16 := ProductInfo("GLBW-T222WO-B", false, true, true),
    17 := ProductInfo("GLB-T137FC", false, false, false),
    18 := ProductInfo("GLB-T237FC", false, false, false),
    19 := ProductInfo("GLB-T237WO", false, false, true),
    20 := ProductInfo("GLB-T174FC", false, false, false),
    21 := ProductInfo("GLB-T274FC", false, false, false),
    22 := ProductInfo("GLBM-T274WO-B", true, false, true),
    23 := ProductInfo("GLB-T222FC", false, true, false),
    24 := ProductInfo("GLB-T222FC-B", false, true, false),
    25 := ProductInfo("GLB-T222WO", false, true, true),
    26 := ProductInfo("GLB-T222WO-B", false, true, true),
    27 := ProductInfo("GLBMW-T274WO-B", true, false, true),
    28 := ProductInfo("GLB-T174FC-B", false, false, false),
    29 := ProductInfo("GLB-T274FC-B", false, false, false),
    30 := ProductInfo("GLBM-T237WO", true, false, true),
    31 := ProductInfo("GLBM-T137FC", true, false, false)
  ]

  const ProductBlock2: map<int, ProductInfo> := map[
    32 := ProductInfo("GLBM-T237FC", true, false, false),
    33 := ProductInfo("GLBMMFF-T237WO", true, false, true),
    34 := ProductInfo("GLBMMFF-T274WO-B", true, false, true),
    35 := ProductInfo("GLBMMFF-T274WO", true, false, true),
    36 := ProductInfo("GLBMN-T222WO-B", false, true, true),
    37 := ProductInfo("GLB-MN-T222WO", true, true, true),
    38 := ProductInfo("GLBMMN-T222WO", true, true, true),
    39 := ProductInfo("GLBMB-T237WO", false, false, true),
    40 := ProductInfo("GLBMFF-T237WO-B", true, false, true),
    41 := ProductInfo("GLBMMFF-T237WO-B", true, false, true),
    42 := ProductInfo("GHL-T274WOI", false, false, true),
    43 := ProductInfo("GLBP-T237WO", false, false, true),
    44 := ProductInfo("GLBP-T137FC", false, false, false),
    45 := ProductInfo("GLBP-T222WO-B", false, false, true),
    46 := ProductInfo("GLBP-T222WO", false, true, true),
    47 := ProductInfo("GLBP-T222FC-B", false, true, false),
    48 := ProductInfo("GLBP-T222FC", false, true, false),
    49 := ProductInfo("GLBPW-T237WO", false, false, true),
    50 := ProductInfo("GLBPW-T137FC", false, false, false),
    51 := ProductInfo("GLBPW-T222WO-B", false, true, true),
    52 := ProductInfo("GLBPW-T222WO", false, true, true),
    53 := ProductInfo("GLBPW-T222FC-B", false, true, false),
    54 := ProductInfo("GLBPW-T222FC", false, true, false),
    55 := ProductInfo("GLBPMN-T222WO", true, true, true),
    56 := ProductInfo("GLBPMMN-T222WO", true, true, true),
    57 := ProductInfo("GLBDC-T137FC-A", false, false, false),
    58 := ProductInfo("GLBDC-T237FC-A", false, false, false),
    59 := ProductInfo("GLBDC-T274WO-A", false, false, true),
    60 := ProductInfo("GLBDCM-T137FC-A", true, false, false),
    61 := ProductInfo("GLBDCM-T237FC-A", true, false, false),
    62 := ProductInfo("GLBDCM-T274WO-A", true, false, true)
  ]

  const ProductBlock3: map<int, ProductInfo> := map[
    63 := ProductInfo("GLBDCM-T274FC-A", true, false, false),
    64 := ProductInfo("GLBDC-T222FC-A", false, true, false),
    65 := ProductInfo("GLBDCM-T222FC", false, true, false),
    66 := ProductInfo("GLBDC-T222WO-A", false, true, true),
    67 := ProductInfo("GLBDCM-T222WO", false, true, true),
    68 := ProductInfo("GLBDC-T174FC", false, false, false),
    69 := ProductInfo("GLBDCM-T274WO", true, false, true),
    70 := ProductInfo("GLBDC-T222WO", false, true, true),
    71 := ProductInfo("GLBDC-T222FC", false, true, false),
    72 := ProductInfo("GLBDCMB-T274WO-A", true, false, true),
    73 := ProductInfo("GLBDCM-T274WO-A-NO", true, false, true),
    74 := ProductInfo("GLBDC-T174FC-A", false, false, false),
    75 := ProductInfo("GLBDC-T274FC", false, false, false),
    76 := ProductInfo("GLBPDC-T222FC-A", false, true, false),
    77 := ProductInfo("GLBPDCM-T222FC", true, true, false),
    78 := ProductInfo("GLBPDC-T222WO-A", false, true, true),
    79 := ProductInfo("GLBPDCM-T222WO", true, true, true),
    80 := ProductInfo("GLBPDC-T222WO", false, true, true),
    81 := ProductInfo("GLBPDC-T222FC", false, true, false),
    82 := ProductInfo("GLBDCM-T274FC", true, false, false),
    83 := ProductInfo("GLBDCW-T274FC-A VO", false, false, false),
    84 := ProductInfo("GLBDCWM-T137FC-A", false, false, false),
    85 := ProductInfo("GLBDCWM-T237FC-A", false, false, false),
    86 := ProductInfo("GLBDCWM-T274WO-A", false, false, true),
    87 := ProductInfo("GLBDCWM-T222FC", false, true, false),
    88 := ProductInfo("GLBDCWM-T222WO", false, true, true),
    89 := ProductInfo("GLBDCWM-T274FC-A", false, false, false),
    90 := ProductInfo("GLBDCW-T211FC", false, true, false),
    91 := ProductInfo("GLBDCW-T222FC", false, true, false),
    92 := ProductInfo("GTCDC-T274WO-A", false, false, true),
    93 := ProductInfo("GTCDCMW-T274WO-A", true, false, true)
  ]

  const ProductBlock4: map<int, ProductInfo> := map[
    94 := ProductInfo("GTBDCM-T222WO-A", true, true, true),
    95 := ProductInfo("GTBDCM-T211FC-A", true, true, false),
    96 := ProductInfo("GTBDCM-T211FC-A", true, false, true),
    97 := ProductInfo("GTBDCM-T274FC-A", true, false, false),
    98 := ProductInfo("GTBDCMB-T274WO-A", false, false, true),
    99 := ProductInfo("GTBDCMB-T222WO-A", false, true, true),
    100 := ProductInfo("GTBDC-T222WO-A", false, true, true),
    101 := ProductInfo("GTBDC-T274WO-A", false, false, true),
    102 := ProductInfo("GTBDC-T274FC-A", false, false, false),
    103 := ProductInfo("GTBDCMW-T274WO-A", true, false, true),
    104 := ProductInfo("GTBDCMW-T222WO-A", true, true, true),
    105 := ProductInfo("GTBDCMW-T274FC-A", true, false, false),
    106 := ProductInfo("GTBDCMW-T211FC-A", true, true, false),
    107 := ProductInfo("GLBDCM-T222WO", false, true, true),
    108 := ProductInfo("GLBDCM-T274WO-A", true, false, true),
    109 := ProductInfo("GLBDCM-T222FK", true, true, false),
    110 := ProductInfo("GLBDCM-T222WO", true, true, true),
    111 := ProductInfo("GLBDCM-T274FK-A", true, false, false),
    112 := ProductInfo("GLBDCWM-T222FC8", true, true, false),
    113 := ProductInfo("GLBDCW-T222WOF-VCC", false, true, true),
    114 := ProductInfo("GLBDC-T274WO PME", false, true, true),
    115 := ProductInfo("GLBDC-T274FC PME", false, true, false),
    116 := ProductInfo("GTBDCMW-T222FC-A", true, true, false),
    117 := ProductInfo("GTBDCMW-T211FCL-A", true, true, false),
    118 := ProductInfo("GTBDCW-T211FCL-A", false, true, false),
    119 := ProductInfo("GLBDCMW-T211FC-VCC", true, true, false),
    120 := ProductInfo("GLBDCMW-T222FC-VCC", true, true, false),
    121 := ProductInfo("GLBDCW-T222FC-A-VCC", false, true, false),
    122 := ProductInfo("GLBDCWM-T222WO-VCC", true, true, true),
    220 := ProductInfo("CLS1-DCM-W-T223WO-A", false, true, false),
    221 := ProductInfo("CLS1-DCM-W-T237WO-A", false, true, false)
  ]

  /** Every connector state has its own wire value, so decoding by value is injective. */
  lemma ConnectorValuesDistinct(a: Connector, b: Connector)
    ensures a.Value() == b.Value() ==> a == b
  {
  }

  /** Decoding a connector's own wire value gives that connector back. */
  lemma ConnectorRoundTrip(c: Connector)
    ensures ConnectorFromJson(Str(c.Value())) == Some(c)
  {
    AllConnectorsComplete();
    var r := ConnectorFromJson(Str(c.Value()));
    assert c in AllConnectors;
    ConnectorValuesDistinct(r.value, c);
  }

  /** `Connector(v)` finds no member exactly when no member carries `v`. */
  lemma ConnectorFromJsonRejects(v: Value)
    ensures ConnectorFromJson(v).None? <==> forall c: Connector :: v != Str(c.Value())
  {
    forall c: Connector {
      ConnectorRoundTrip(c);
    }
  }

  /** The list of connector states has 24 entries and holds every state. */
  lemma AllConnectorsComplete()
    ensures |AllConnectors| == 24
    ensures forall c: Connector :: c in AllConnectors
  {
    forall c: Connector ensures c in AllConnectors {
      match c
        case Changing => assert AllConnectors[0] == c;
        case NotConnected => assert AllConnectors[1] == c;
        case Connected => assert AllConnectors[2] == c;
        case SearchComm => assert AllConnectors[3] == c;
        case RcdFault => assert AllConnectors[4] == c;
        case Charging => assert AllConnectors[5] == c;
        case ChargingPaused => assert AllConnectors[6] == c;
        case ChargingFinished => assert AllConnectors[7] == c;
        case ChargingCancelled => assert AllConnectors[8] == c;
        case Disabled => assert AllConnectors[9] == c;
        case Overheat => assert AllConnectors[10] == c;
        case CriticalTemperature => assert AllConnectors[11] == c;
        case Initialization => assert AllConnectors[12] == c;
        case CableFault => assert AllConnectors[13] == c;
        case LockFault => assert AllConnectors[14] == c;
        case ContactorFault => assert AllConnectors[15] == c;
        case VentFault => assert AllConnectors[16] == c;
        case DcError => assert AllConnectors[17] == c;
        case DcHardware => assert AllConnectors[18] == c;
        case CpFault => assert AllConnectors[19] == c;
        case CpShorted => assert AllConnectors[20] == c;
        case RemoteDisabled => assert AllConnectors[21] == c;
        case Unknown => assert AllConnectors[22] == c;
        case Unavailable => assert AllConnectors[23] == c;
    }
  }

  /** The cable lock codes, as the device numbers them. */
  lemma CableLockModeCodes()
    ensures Unlocked.Value() == 0 && Locked.Value() == 2 && LockedWithPowerLossUnlock.Value() == 1
    ensures forall m: CableLockMode :: CableLockModeFromJson(Int(m.Value())) == Some(m)
  {
  }

  /** The catalogue's keys are exactly 1..122, 220 and 221. */
  lemma ProductMapKeys(id: int)
    ensures id in ProductMap <==> (1 <= id <= 122 || id == 220 || id == 221)
  {
    BlockKeys(id);
    UnionKeys(ProductBlock1, ProductBlock2, ProductBlock3, ProductBlock4, id);
  }

  lemma UnionKeys<K, V>(a: map<K, V>, b: map<K, V>, c: map<K, V>, d: map<K, V>, k: K)
    ensures k in a + b + c + d <==> k in a || k in b || k in c || k in d
  {
  }

  lemma BlockKeys(id: int)
    ensures id in ProductBlock1 <==> 1 <= id <= 31
    ensures id in ProductBlock2 <==> 32 <= id <= 62
    ensures id in ProductBlock3 <==> 63 <= id <= 93
    ensures id in ProductBlock4 <==> (94 <= id <= 122 || id == 220 || id == 221)
  {
    Block1Keys(id);
    Block2Keys(id);
    Block3Keys(id);
    Block4Keys(id);
  }

  lemma Block1Keys(id: int)
    ensures id in ProductBlock1 <==> 1 <= id <= 31
  {
  }

  lemma Block2Keys(id: int)
    ensures id in ProductBlock2 <==> 32 <= id <= 62
  {
  }

  lemma Block3Keys(id: int)
    ensures id in ProductBlock3 <==> 63 <= id <= 93
  {
  }

  lemma Block4Keys(id: int)
    ensures id in ProductBlock4 <==> (94 <= id <= 122 || id == 220 || id == 221)
  {
  }

  /** A product built from a name alone has no meter, one phase and no outlet. */
  lemma NamedProductHasNoFeatures(name: string)
    ensures !ProductInfo(name).hasMeter && !ProductInfo(name).is3Phase && !ProductInfo(name).hasOutlet
  {
  }
}
