/**
 * The wallbox's live status and its nested main/twin chargers:
 * custom_components/garo_wallbox/garo/garostatus.py.
 */
module Status {
  import opened Wrappers
  import opened Json
  import opened Loading
  import opened Const
  import Utils
  import Charger

  /** Charging power readings above this many watts are sensor glitches and are stored as 0. */
  const PowerCeiling: real := 32000.0

  /** A lifetime-counter reading more than this far above a positive stored one is ignored. */
  const MaxReadingJump: real := 500000.0

  /** Snapshot of a `GaroStatus` and of its two nested chargers. */
  datatype StatusState = StatusState(
    serialNumber: Value,
    connector: Connector,
    mode: Mode,
    currentLimit: Value,
    factoryCurrentLimit: Value,
    switchCurrentLimit: Value,
    powerMode: PowerMode,
    chargingCurrent: real,
    chargingPower: Value,
    sessionEnergy: Value,
    sessionMillis: Value,
    latestReading: Value,
    chargeStatus: Value,
    temperature: Value,
    phases: Value,
    pilotLevel: Value,
    hasChanged: bool,
    main: Charger.ChargerState,
    twin: Charger.ChargerState)
  {
    /** Everything the flag-raising setters store: all fields but the serial number, the flag and the nested chargers. */
    function Readings(): StatusReadings {
      StatusReadings(connector, mode, currentLimit, factoryCurrentLimit, switchCurrentLimit, powerMode,
                     chargingCurrent, chargingPower, sessionEnergy, sessionMillis, latestReading,
                     chargeStatus, temperature, phases, pilotLevel)
    }
  }

  datatype StatusReadings = StatusReadings(
    connector: Connector,
    mode: Mode,
    currentLimit: Value,
    factoryCurrentLimit: Value,
    switchCurrentLimit: Value,
    powerMode: PowerMode,
    chargingCurrent: real,
    chargingPower: Value,
    sessionEnergy: Value,
    sessionMillis: Value,
    latestReading: Value,
    chargeStatus: Value,
    temperature: Value,
    phases: Value,
    pilotLevel: Value)

  /** A status built without a document. */
  const InitialStatus: StatusState := StatusState(
    Int(0), Connector.Unknown, Mode.Off, Int(0), Int(0), Int(0), PowerOff, 0.0, Int(0), Int(0), Int(0),
    Int(0), Int(0), Int(0), Int(1), Int(0), false, Charger.InitialCharger, Charger.InitialCharger)

  /** What every setter maintains: the current is never negative, the power is a number no larger than the ceiling. */
  predicate StatusInvariant(s: StatusState) {
    s.chargingCurrent >= 0.0 && WithinCeiling(s.chargingPower)
  }

  /** A number no larger than the power ceiling. */
  predicate WithinCeiling(v: Value) {
    AsNumber(v).Some? && AsNumber(v).value <= PowerCeiling
  }

  // The property setters. Each stores the incoming value and raises the flag only when it differs.

  function WithSerialNumber(s: StatusState, v: Value): StatusState {
    s.(serialNumber := Assign(s.serialNumber, v), hasChanged := s.hasChanged || !Equal(s.serialNumber, v))
  }

  function WithConnector(s: StatusState, c: Connector): StatusState {
    s.(connector := c, hasChanged := s.hasChanged || s.connector != c)
  }

  function WithMode(s: StatusState, m: Mode): StatusState {
    s.(mode := m, hasChanged := s.hasChanged || s.mode != m)
  }

  function WithCurrentLimit(s: StatusState, v: Value): StatusState {
    s.(currentLimit := Assign(s.currentLimit, v), hasChanged := s.hasChanged || !Equal(s.currentLimit, v))
  }

  function WithFactoryCurrentLimit(s: StatusState, v: Value): StatusState {
    s.(factoryCurrentLimit := Assign(s.factoryCurrentLimit, v),
       hasChanged := s.hasChanged || !Equal(s.factoryCurrentLimit, v))
  }

  function WithSwitchCurrentLimit(s: StatusState, v: Value): StatusState {
    s.(switchCurrentLimit := Assign(s.switchCurrentLimit, v),
       hasChanged := s.hasChanged || !Equal(s.switchCurrentLimit, v))
  }

  function WithPowerMode(s: StatusState, m: PowerMode): StatusState {
    s.(powerMode := m, hasChanged := s.hasChanged || s.powerMode != m)
  }

  /** `max(0, value / 1000)`: milliamperes to amperes, negative readings as 0. */
  function ScaledCurrent(n: real): real {
    if n / 1000.0 > 0.0 then n / 1000.0 else 0.0
  }

  /** A power reading above the ceiling becomes the integer 0; any other is kept as sent. */
  function ClampedPower(v: Value): Value
    requires AsNumber(v).Some?
  {
    if AsNumber(v).value > PowerCeiling then Int(0) else v
  }

  /** The current arrives in milliamperes: it is stored as `max(0, value / 1000)` and compared after scaling. */
  function WithChargingCurrent(s: StatusState, v: Value): Result<StatusState, Error> {
    match AsNumber(v)
    case None => Err(TypeError("currentChargingCurrent"))
    case Some(n) =>
      var scaled := ScaledCurrent(n);
      Ok(s.(chargingCurrent := scaled, hasChanged := s.hasChanged || s.chargingCurrent != scaled))
  }

  /** Power above the ceiling is replaced by 0 before the comparison. */
  function WithChargingPower(s: StatusState, v: Value): Result<StatusState, Error> {
    match AsNumber(v)
    case None => Err(TypeError("currentChargingPower"))
    case Some(n) =>
      var clamped := ClampedPower(v);
      Ok(s.(chargingPower := Assign(s.chargingPower, clamped),
            hasChanged := s.hasChanged || !Equal(s.chargingPower, clamped)))
  }

  function WithSessionEnergy(s: StatusState, v: Value): StatusState {
    s.(sessionEnergy := Assign(s.sessionEnergy, v), hasChanged := s.hasChanged || !Equal(s.sessionEnergy, v))
  }

  function WithSessionMillis(s: StatusState, v: Value): StatusState {
    s.(sessionMillis := Assign(s.sessionMillis, v), hasChanged := s.hasChanged || !Equal(s.sessionMillis, v))
  }

  /**
   * An equal value is ignored; otherwise, when the stored reading is positive,
   * a value more than `MaxReadingJump` above it is ignored too. The comparisons
   * raise when the stored or the incoming value is not a number.
   */
  function WithLatestReading(s: StatusState, v: Value): Result<StatusState, Error> {
    if Equal(s.latestReading, v) then Ok(s)
    else
      match AsNumber(s.latestReading)
      case None => Err(TypeError("latestReading"))
      case Some(stored) =>
        if stored > 0.0 then
          match AsNumber(v)
          case None => Err(TypeError("latestReading"))
          case Some(n) =>
            if n - stored > MaxReadingJump then Ok(s)
            else Ok(s.(latestReading := v, hasChanged := true))
        else Ok(s.(latestReading := v, hasChanged := true))
  }

  function WithChargeStatus(s: StatusState, v: Value): StatusState {
    s.(chargeStatus := Assign(s.chargeStatus, v), hasChanged := s.hasChanged || !Equal(s.chargeStatus, v))
  }

  function WithTemperature(s: StatusState, v: Value): StatusState {
    s.(temperature := Assign(s.temperature, v), hasChanged := s.hasChanged || !Equal(s.temperature, v))
  }

  function WithPhases(s: StatusState, v: Value): StatusState {
    s.(phases := Assign(s.phases, v), hasChanged := s.hasChanged || !Equal(s.phases, v))
  }

  function WithPilotLevel(s: StatusState, v: Value): StatusState {
    s.(pilotLevel := Assign(s.pilotLevel, v), hasChanged := s.hasChanged || !Equal(s.pilotLevel, v))
  }

  /** `load`'s setters from `connector` to `powerMode`. */
  function MergeSettings(s: StatusState, json: Doc): StatusState {
    var s1 := WithConnector(s, Utils.ReadEnum(json, "connector", ConnectorFromJson, s.connector));
    var s2 := WithMode(s1, Utils.ReadEnum(json, "mode", ModeFromJson, s1.mode));
    var s3 := WithCurrentLimit(s2, Utils.ReadValue(json, "currentLimit", s2.currentLimit));
    var s4 := WithFactoryCurrentLimit(s3, Utils.ReadValue(json, "factoryCurrentLimit", s3.factoryCurrentLimit));
    var s5 := WithSwitchCurrentLimit(s4, Utils.ReadValue(json, "switchCurrentLimit", s4.switchCurrentLimit));
    WithPowerMode(s5, Utils.ReadEnum(json, "powerMode", PowerModeFromJson, s5.powerMode))
  }

  /** `load`'s session setters. */
  function MergeSession(s: StatusState, json: Doc): StatusState {
    var s1 := WithSessionEnergy(s, Utils.ReadValue(json, "accSessionEnergy", s.sessionEnergy));
    WithSessionMillis(s1, Utils.ReadValue(json, "accSessionMillis", s1.sessionMillis))
  }

  /** `load`'s setters from `chargeStatus` to `pilotLevel`. */
  function MergeTail(s: StatusState, json: Doc): StatusState {
    var s1 := WithChargeStatus(s, Utils.ReadValue(json, "chargeStatus", s.chargeStatus));
    var s2 := WithTemperature(s1, Utils.ReadValue(json, "currentTemperature", s1.temperature));
    var s3 := WithPhases(s2, Utils.ReadValue(json, "nrOfPhases", s2.phases));
    WithPilotLevel(s3, Utils.ReadValue(json, "pilotLevel", s3.pilotLevel))
  }

  /**
   * The nested chargers: each present key is loaded into the existing charger
   * in place, and a `true` from it raises the status flag.
   */
  function LoadNested(s: StatusState, json: Doc): Loaded<StatusState> {
    var m := if "mainCharger" in json then Charger.ChargerLoad(s.main, json["mainCharger"]) else Loaded(s.main, Ok(false));
    var s1 := s.(main := m.state, hasChanged := s.hasChanged || (m.outcome.Ok? && m.outcome.value));
    if m.outcome.Err? then Loaded(s1, Err(m.outcome.error))
    else
      var t := if "twinCharger" in json then Charger.ChargerLoad(s1.twin, json["twinCharger"]) else Loaded(s1.twin, Ok(false));
      var s2 := s1.(twin := t.state, hasChanged := s1.hasChanged || (t.outcome.Ok? && t.outcome.value));
      if t.outcome.Err? then Loaded(s2, Err(t.outcome.error))
      else Loaded(s2, Ok(s2.hasChanged))
  }

  /**
   * `GaroStatus.load(json)`: clear the flag; None or an empty object returns
   * false; the serial number is copied without its setter (so without the
   * flag) and is required; then every setter in turn, then the nested chargers.
   * A setter that raises stops the load with the earlier assignments kept.
   */
  function StatusLoad(s: StatusState, doc: Option<Doc>): Loaded<StatusState> {
    var s0 := s.(hasChanged := false);
    if doc.None? || doc.value == map[] then Loaded(s0, Ok(false))
    else if "serialNumber" !in doc.value then Loaded(s0, Err(KeyError("serialNumber")))
    else LoadFields(s0.(serialNumber := doc.value["serialNumber"]), doc.value)
  }

  /** The setters of `load` from `connector` on. */
  function LoadFields(s: StatusState, json: Doc): Loaded<StatusState> {
    var s1 := MergeSettings(s, json);
    match WithChargingCurrent(s1, Utils.ReadValue(json, "currentChargingCurrent", Float(s1.chargingCurrent)))
    case Err(e) => Loaded(s1, Err(e))
    case Ok(s2) => LoadFromPower(s2, json)
  }

  /** The setters of `load` from `currentChargingPower` on. */
  function LoadFromPower(s: StatusState, json: Doc): Loaded<StatusState> {
    match WithChargingPower(s, Utils.ReadValue(json, "currentChargingPower", s.chargingPower))
    case Err(e) => Loaded(s, Err(e))
    case Ok(s1) => LoadFromSession(s1, json)
  }

  /** The setters of `load` from `accSessionEnergy` on. */
  function LoadFromSession(s: StatusState, json: Doc): Loaded<StatusState> {
    var s1 := MergeSession(s, json);
    match WithLatestReading(s1, Utils.ReadValue(json, "latestReading", s1.latestReading))
    case Err(e) => Loaded(s1, Err(e))
    case Ok(s2) => LoadNested(MergeTail(s2, json), json)
  }

  // ---------------------------------------------------------------------------
  // Properties of a load

  /** Every stage that cannot fail raises the flag exactly when it changes a reading, and touches nothing else. */
  lemma MergeStagesReportChange(s: StatusState, json: Doc)
    ensures var t := MergeSettings(s, json);
      && (t.hasChanged <==> s.hasChanged || t.Readings() != s.Readings())
      && t == s.(connector := t.connector, mode := t.mode, currentLimit := t.currentLimit,
                 factoryCurrentLimit := t.factoryCurrentLimit, switchCurrentLimit := t.switchCurrentLimit,
                 powerMode := t.powerMode, hasChanged := t.hasChanged)
    ensures var t := MergeSession(s, json);
      && (t.hasChanged <==> s.hasChanged || t.Readings() != s.Readings())
      && t == s.(sessionEnergy := t.sessionEnergy, sessionMillis := t.sessionMillis, hasChanged := t.hasChanged)
    ensures var t := MergeTail(s, json);
      && (t.hasChanged <==> s.hasChanged || t.Readings() != s.Readings())
      && t == s.(chargeStatus := t.chargeStatus, temperature := t.temperature, phases := t.phases,
                 pilotLevel := t.pilotLevel, hasChanged := t.hasChanged)
  {
  }

  /** None or an empty object: the flag is cleared and nothing else changes. */
  lemma LoadOfNothing(s: StatusState, doc: Option<Doc>)
    requires doc.None? || doc.value == map[]
    ensures StatusLoad(s, doc) == Loaded(s.(hasChanged := false), Ok(false))
  {
  }

  /** A non-empty object without `serialNumber` raises KeyError before any field is touched. */
  lemma LoadRequiresSerialNumber(s: StatusState, json: Doc)
    requires json != map[] && "serialNumber" !in json
    ensures StatusLoad(s, Some(json)) == Loaded(s.(hasChanged := false), Err(KeyError("serialNumber")))
  {
  }

  /** Loading never breaks the invariant: the stored current stays non-negative and the stored power within the ceiling. */
  lemma LoadKeepsInvariant(s: StatusState, doc: Option<Doc>)
    requires StatusInvariant(s)
    ensures StatusInvariant(StatusLoad(s, doc).state)
  {
    if doc.Some? && doc.value != map[] && "serialNumber" in doc.value {
      LoadFieldsKeepsInvariant(s.(hasChanged := false, serialNumber := doc.value["serialNumber"]), doc.value);
    }
  }

  lemma LoadFieldsKeepsInvariant(s: StatusState, json: Doc)
    requires StatusInvariant(s)
    ensures StatusInvariant(LoadFields(s, json).state)
  {
    var s1 := MergeSettings(s, json);
    MergeStagesReportChange(s, json);
    var c := WithChargingCurrent(s1, Utils.ReadValue(json, "currentChargingCurrent", Float(s1.chargingCurrent)));
    if c.Ok? {
      LoadFromPowerKeepsInvariant(c.value, json);
    }
  }

  lemma LoadFromPowerKeepsInvariant(s: StatusState, json: Doc)
    requires StatusInvariant(s)
    ensures StatusInvariant(LoadFromPower(s, json).state)
  {
    var p := WithChargingPower(s, Utils.ReadValue(json, "currentChargingPower", s.chargingPower));
    if p.Ok? {
      LoadFromSessionKeepsInvariant(p.value, json);
    }
  }

  lemma LoadFromSessionKeepsInvariant(s: StatusState, json: Doc)
    requires StatusInvariant(s)
    ensures StatusInvariant(LoadFromSession(s, json).state)
  {
    LoadFromSessionFrame(s, json);
  }

  // ---------------------------------------------------------------------------
  // A state that already reflects a document

  predicate SettingsReflect(t: StatusState, json: Doc) {
    && ("connector" in json && ConnectorFromJson(json["connector"]).Some? ==>
          t.connector == ConnectorFromJson(json["connector"]).value)
    && ("mode" in json && ModeFromJson(json["mode"]).Some? ==> t.mode == ModeFromJson(json["mode"]).value)
    && ("currentLimit" in json ==> Equal(t.currentLimit, json["currentLimit"]))
    && ("factoryCurrentLimit" in json ==> Equal(t.factoryCurrentLimit, json["factoryCurrentLimit"]))
    && ("switchCurrentLimit" in json ==> Equal(t.switchCurrentLimit, json["switchCurrentLimit"]))
    && ("powerMode" in json && PowerModeFromJson(json["powerMode"]).Some? ==>
          t.powerMode == PowerModeFromJson(json["powerMode"]).value)
  }

  predicate CurrentReflects(t: StatusState, json: Doc) {
    "currentChargingCurrent" in json ==>
      AsNumber(json["currentChargingCurrent"]).Some?
      && t.chargingCurrent == ScaledCurrent(AsNumber(json["currentChargingCurrent"]).value)
  }

  /** The stored power is a number within the ceiling, equal to the clamped reading when one is sent. */
  predicate PowerReflects(t: StatusState, json: Doc) {
    && WithinCeiling(t.chargingPower)
    && ("currentChargingPower" in json ==>
          AsNumber(json["currentChargingPower"]).Some?
          && Equal(t.chargingPower, ClampedPower(json["currentChargingPower"])))
  }

  predicate SessionReflects(t: StatusState, json: Doc) {
    && ("accSessionEnergy" in json ==> Equal(t.sessionEnergy, json["accSessionEnergy"]))
    && ("accSessionMillis" in json ==> Equal(t.sessionMillis, json["accSessionMillis"]))
  }

  /** The stored reading equals the document's, or the document's is a jump the guard rejects. */
  predicate LatestReflects(t: StatusState, json: Doc) {
    "latestReading" in json ==>
      || Equal(t.latestReading, json["latestReading"])
      || (&& AsNumber(t.latestReading).Some? && AsNumber(t.latestReading).value > 0.0
          && AsNumber(json["latestReading"]).Some?
          && AsNumber(json["latestReading"]).value - AsNumber(t.latestReading).value > MaxReadingJump)
  }

  predicate TailReflects(t: StatusState, json: Doc) {
    && ("chargeStatus" in json ==> Equal(t.chargeStatus, json["chargeStatus"]))
    && ("currentTemperature" in json ==> Equal(t.temperature, json["currentTemperature"]))
    && ("nrOfPhases" in json ==> Equal(t.phases, json["nrOfPhases"]))
    && ("pilotLevel" in json ==> Equal(t.pilotLevel, json["pilotLevel"]))
  }

  predicate NestedReflect(t: StatusState, json: Doc) {
    && ("mainCharger" in json ==> Charger.ChargerLoad(t.main, json["mainCharger"]) == Loaded(t.main, Ok(false)))
    && ("twinCharger" in json ==> Charger.ChargerLoad(t.twin, json["twinCharger"]) == Loaded(t.twin, Ok(false)))
  }

  /**
   * Every present key's value is already stored (after scaling, clamping or
   * the reading guard), and the nested chargers would take their documents
   * without change.
   */
  predicate Reflects(t: StatusState, json: Doc) {
    && SettingsReflect(t, json)
    && CurrentReflects(t, json)
    && PowerReflects(t, json)
    && SessionReflects(t, json)
    && LatestReflects(t, json)
    && TailReflects(t, json)
    && NestedReflect(t, json)
  }

  // ---------------------------------------------------------------------------
  // What each stage of a load does, from the stage on

  /** The nested chargers' own flags are clear, as every charger `load` leaves them. */
  predicate NestedQuiet(s: StatusState) {
    !s.main.hasChanged && !s.twin.hasChanged
  }

  /** Some reading of the status or of one of its nested chargers differs between the two states. */
  predicate ReadingsDiffer(s: StatusState, t: StatusState) {
    s.Readings() != t.Readings() || s.main.Readings() != t.main.Readings() || s.twin.Readings() != t.twin.Readings()
  }

  /**
   * Every field whose key the document lacks keeps its value. The current is
   * divided again when its key is missing, so it stays only at 0; the power is
   * clamped again, so it stays only when within the ceiling.
   */
  predicate KeepsAbsent(s: StatusState, t: StatusState, json: Doc) {
    && ("connector" !in json ==> t.connector == s.connector)
    && ("mode" !in json ==> t.mode == s.mode)
    && ("currentLimit" !in json ==> t.currentLimit == s.currentLimit)
    && ("factoryCurrentLimit" !in json ==> t.factoryCurrentLimit == s.factoryCurrentLimit)
    && ("switchCurrentLimit" !in json ==> t.switchCurrentLimit == s.switchCurrentLimit)
    && ("powerMode" !in json ==> t.powerMode == s.powerMode)
    && ("currentChargingCurrent" !in json && s.chargingCurrent == 0.0 ==> t.chargingCurrent == 0.0)
    && ("currentChargingPower" !in json && WithinCeiling(s.chargingPower) ==> t.chargingPower == s.chargingPower)
    && ("accSessionEnergy" !in json ==> t.sessionEnergy == s.sessionEnergy)
    && ("accSessionMillis" !in json ==> t.sessionMillis == s.sessionMillis)
    && ("latestReading" !in json ==> t.latestReading == s.latestReading)
    && ("chargeStatus" !in json ==> t.chargeStatus == s.chargeStatus)
    && ("currentTemperature" !in json ==> t.temperature == s.temperature)
    && ("nrOfPhases" !in json ==> t.phases == s.phases)
    && ("pilotLevel" !in json ==> t.pilotLevel == s.pilotLevel)
    && ("mainCharger" !in json ==> t.main == s.main)
    && ("twinCharger" !in json ==> t.twin == s.twin)
  }

  lemma LoadNestedEffect(s: StatusState, json: Doc)
    ensures var r := LoadNested(s, json);
      && r.state == s.(main := r.state.main, twin := r.state.twin, hasChanged := r.state.hasChanged)
      && KeepsAbsent(s, r.state, json)
      && (r.outcome.Ok? ==> r.outcome.value == r.state.hasChanged && NestedReflect(r.state, json))
      && (NestedQuiet(s) ==> NestedQuiet(r.state) && (r.state.hasChanged <==> s.hasChanged || ReadingsDiffer(s, r.state)))
  {
    if "mainCharger" in json {
      Charger.LoadReportsChange(s.main, json["mainCharger"]);
      if Charger.ChargerLoad(s.main, json["mainCharger"]).outcome.Ok? {
        Charger.LoadTwiceReportsNoChange(s.main, json["mainCharger"]);
      }
    }
    if "twinCharger" in json {
      Charger.LoadReportsChange(s.twin, json["twinCharger"]);
      if Charger.ChargerLoad(s.twin, json["twinCharger"]).outcome.Ok? {
        Charger.LoadTwiceReportsNoChange(s.twin, json["twinCharger"]);
      }
    }
  }

  /** The latest-reading setter touches only its field and the flag, and raises the flag only when it stores a different value. */
  lemma LatestReadingFrame(s: StatusState, v: Value)
    ensures var r := WithLatestReading(s, v);
      && (r.Ok? ==> r.value == s.(latestReading := r.value.latestReading, hasChanged := r.value.hasChanged))
      && (r.Ok? ==> (r.value.hasChanged <==> s.hasChanged || r.value.latestReading != s.latestReading))
      && (v == s.latestReading ==> r == Ok(s))
  {
  }

  lemma LoadFromSessionFrame(s: StatusState, json: Doc)
    ensures var r := LoadFromSession(s, json);
      && r.state == s.(sessionEnergy := r.state.sessionEnergy, sessionMillis := r.state.sessionMillis,
                       latestReading := r.state.latestReading, chargeStatus := r.state.chargeStatus,
                       temperature := r.state.temperature, phases := r.state.phases, pilotLevel := r.state.pilotLevel,
                       main := r.state.main, twin := r.state.twin, hasChanged := r.state.hasChanged)
      && KeepsAbsent(s, r.state, json)
  {
    var s1 := MergeSession(s, json);
    MergeStagesReportChange(s, json);
    var v := Utils.ReadValue(json, "latestReading", s1.latestReading);
    LatestReadingFrame(s1, v);
    var l := WithLatestReading(s1, v);
    if l.Ok? {
      var s2 := l.value;
      var s3 := MergeTail(s2, json);
      MergeStagesReportChange(s2, json);
      LoadNestedEffect(s3, json);
      var r := LoadNested(s3, json);
      assert r == LoadFromSession(s, json);
    }
  }

  lemma LoadFromSessionReflects(s: StatusState, json: Doc)
    ensures var r := LoadFromSession(s, json);
      r.outcome.Ok? ==>
        && r.outcome.value == r.state.hasChanged
        && SessionReflects(r.state, json) && LatestReflects(r.state, json)
        && TailReflects(r.state, json) && NestedReflect(r.state, json)
  {
    var s1 := MergeSession(s, json);
    MergeStagesReportChange(s, json);
    MergeStagesReflect(s, json);
    var v := Utils.ReadValue(json, "latestReading", s1.latestReading);
    LatestReadingFrame(s1, v);
    LatestReadingReflects(s1, json);
    var l := WithLatestReading(s1, v);
    if l.Ok? {
      var s2 := l.value;
      var s3 := MergeTail(s2, json);
      MergeStagesReportChange(s2, json);
      MergeStagesReflect(s2, json);
      assert SessionReflects(s3, json) && LatestReflects(s3, json) && TailReflects(s3, json);
      LoadNestedEffect(s3, json);
      assert LoadFromSession(s, json) == LoadNested(s3, json);
    }
  }

  /** After the latest-reading setter succeeds with the document's value, the stored reading reflects it. */
  lemma LatestReadingReflects(s: StatusState, json: Doc)
    ensures var l := WithLatestReading(s, Utils.ReadValue(json, "latestReading", s.latestReading));
      l.Ok? ==> LatestReflects(l.value, json)
  {
    EqualIsEquivalence(s.latestReading, s.latestReading, s.latestReading);
  }

  lemma LoadFromSessionFlag(s: StatusState, json: Doc)
    requires NestedQuiet(s)
    ensures var r := LoadFromSession(s, json);
      NestedQuiet(r.state) && (r.state.hasChanged <==> s.hasChanged || ReadingsDiffer(s, r.state))
  {
    var s1 := MergeSession(s, json);
    MergeStagesReportChange(s, json);
    var v := Utils.ReadValue(json, "latestReading", s1.latestReading);
    LatestReadingFrame(s1, v);
    var l := WithLatestReading(s1, v);
    if l.Ok? {
      var s2 := l.value;
      var s3 := MergeTail(s2, json);
      MergeStagesReportChange(s2, json);
      LoadNestedEffect(s3, json);
      var r := LoadNested(s3, json);
      assert r == LoadFromSession(s, json);
    }
  }

  lemma LoadFromPowerFrame(s: StatusState, json: Doc)
    ensures var r := LoadFromPower(s, json);
      && r.state == s.(chargingPower := r.state.chargingPower,
                       sessionEnergy := r.state.sessionEnergy, sessionMillis := r.state.sessionMillis,
                       latestReading := r.state.latestReading, chargeStatus := r.state.chargeStatus,
                       temperature := r.state.temperature, phases := r.state.phases, pilotLevel := r.state.pilotLevel,
                       main := r.state.main, twin := r.state.twin, hasChanged := r.state.hasChanged)
      && KeepsAbsent(s, r.state, json)
  {
    var p := WithChargingPower(s, Utils.ReadValue(json, "currentChargingPower", s.chargingPower));
    if p.Ok? {
      LoadFromSessionFrame(p.value, json);
    }
  }

  lemma LoadFromPowerReflects(s: StatusState, json: Doc)
    ensures var r := LoadFromPower(s, json);
      r.outcome.Ok? ==>
        && r.outcome.value == r.state.hasChanged
        && PowerReflects(r.state, json)
        && SessionReflects(r.state, json) && LatestReflects(r.state, json)
        && TailReflects(r.state, json) && NestedReflect(r.state, json)
  {
    var p := WithChargingPower(s, Utils.ReadValue(json, "currentChargingPower", s.chargingPower));
    if p.Ok? {
      LoadFromSessionFrame(p.value, json);
      LoadFromSessionReflects(p.value, json);
    }
  }

  lemma LoadFromPowerFlag(s: StatusState, json: Doc)
    requires NestedQuiet(s)
    ensures var r := LoadFromPower(s, json);
      NestedQuiet(r.state) && (r.state.hasChanged <==> s.hasChanged || ReadingsDiffer(s, r.state))
  {
    var p := WithChargingPower(s, Utils.ReadValue(json, "currentChargingPower", s.chargingPower));
    if p.Ok? {
      LoadFromSessionFrame(p.value, json);
      LoadFromSessionFlag(p.value, json);
    }
  }

  lemma LoadFieldsFrame(s: StatusState, json: Doc)
    ensures var r := LoadFields(s, json);
      r.state.serialNumber == s.serialNumber && KeepsAbsent(s, r.state, json)
  {
    var s1 := MergeSettings(s, json);
    MergeStagesReportChange(s, json);
    var c := WithChargingCurrent(s1, Utils.ReadValue(json, "currentChargingCurrent", Float(s1.chargingCurrent)));
    if c.Ok? {
      LoadFromPowerFrame(c.value, json);
    }
  }

  lemma LoadFieldsReflects(s: StatusState, json: Doc)
    ensures var r := LoadFields(s, json);
      r.outcome.Ok? ==> r.outcome.value == r.state.hasChanged && Reflects(r.state, json)
  {
    var s1 := MergeSettings(s, json);
    MergeStagesReportChange(s, json);
    MergeStagesReflect(s, json);
    var c := WithChargingCurrent(s1, Utils.ReadValue(json, "currentChargingCurrent", Float(s1.chargingCurrent)));
    if c.Ok? {
      LoadFromPowerFrame(c.value, json);
      LoadFromPowerReflects(c.value, json);
    }
  }

  lemma LoadFieldsFlag(s: StatusState, json: Doc)
    requires NestedQuiet(s)
    ensures var r := LoadFields(s, json);
      NestedQuiet(r.state) && (r.state.hasChanged <==> s.hasChanged || ReadingsDiffer(s, r.state))
  {
    var s1 := MergeSettings(s, json);
    MergeStagesReportChange(s, json);
    var c := WithChargingCurrent(s1, Utils.ReadValue(json, "currentChargingCurrent", Float(s1.chargingCurrent)));
    if c.Ok? {
      LoadFromPowerFrame(c.value, json);
      LoadFromPowerFlag(c.value, json);
    }
  }

  // ---------------------------------------------------------------------------
  // A state that reflects the document is a fixed point of each stage

  // Stage by stage: a successful stage leaves its fields reflecting the document ...

  lemma MergeStagesReflect(s: StatusState, json: Doc)
    ensures SettingsReflect(MergeSettings(s, json), json)
    ensures SessionReflects(MergeSession(s, json), json)
    ensures TailReflects(MergeTail(s, json), json)
  {
    EqualIsEquivalence(Null, Null, Null);
    forall a: Value, b: Value ensures Equal(Assign(a, b), b) {
      EqualIsEquivalence(a, b, b);
    }
  }

  // ... and a stage whose fields already reflect the document changes nothing.

  lemma ReflectingStagesAreFixed(t: StatusState, json: Doc)
    ensures SettingsReflect(t, json) ==> MergeSettings(t, json) == t
    ensures SessionReflects(t, json) ==> MergeSession(t, json) == t
    ensures TailReflects(t, json) ==> MergeTail(t, json) == t
  {
  }

  lemma LoadNestedOfReflected(t: StatusState, json: Doc)
    requires NestedReflect(t, json)
    ensures LoadNested(t, json) == Loaded(t, Ok(t.hasChanged))
  {
  }

  lemma LoadFromSessionOfReflected(t: StatusState, json: Doc)
    requires SessionReflects(t, json) && LatestReflects(t, json) && TailReflects(t, json) && NestedReflect(t, json)
    ensures LoadFromSession(t, json) == Loaded(t, Ok(t.hasChanged))
  {
    ReflectingStagesAreFixed(t, json);
    LoadNestedOfReflected(t, json);
  }

  lemma LoadFromPowerOfReflected(t: StatusState, json: Doc)
    requires PowerReflects(t, json) && SessionReflects(t, json) && LatestReflects(t, json)
    requires TailReflects(t, json) && NestedReflect(t, json)
    ensures LoadFromPower(t, json) == Loaded(t, Ok(t.hasChanged))
  {
    LoadFromSessionOfReflected(t, json);
  }

  lemma LoadFieldsOfReflected(t: StatusState, json: Doc)
    requires Reflects(t, json)
    requires "currentChargingCurrent" in json || t.chargingCurrent == 0.0
    ensures LoadFields(t, json) == Loaded(t, Ok(t.hasChanged))
  {
    ReflectingStagesAreFixed(t, json);
    LoadFromPowerOfReflected(t, json);
  }

  // ---------------------------------------------------------------------------
  // The properties of `load`

  /**
   * With the nested chargers' flags clear, the flag `load` leaves (and returns
   * on success) is raised exactly when a reading of the status or of a present
   * nested charger changed; the nested flags stay clear.
   */
  lemma LoadReportsChange(s: StatusState, doc: Option<Doc>)
    requires NestedQuiet(s)
    ensures var r := StatusLoad(s, doc);
      && NestedQuiet(r.state)
      && (r.state.hasChanged <==> ReadingsDiffer(s, r.state))
      && (r.outcome.Ok? ==> r.outcome.value == r.state.hasChanged)
  {
    if doc.Some? && doc.value != map[] && "serialNumber" in doc.value {
      var s0 := s.(hasChanged := false, serialNumber := doc.value["serialNumber"]);
      LoadFieldsFlag(s0, doc.value);
      LoadFieldsReflects(s0, doc.value);
    }
  }

  /**
   * A field whose key the document lacks keeps its value, whatever the
   * outcome (the current only at 0, the power only within the ceiling), and
   * the serial number is the document's.
   */
  lemma LoadKeepsAbsentFields(s: StatusState, json: Doc)
    ensures var r := StatusLoad(s, Some(json));
      && KeepsAbsent(s, r.state, json)
      && ("serialNumber" in json ==> r.state.serialNumber == json["serialNumber"])
  {
    if json != map[] && "serialNumber" in json {
      LoadFieldsFrame(s.(hasChanged := false, serialNumber := json["serialNumber"]), json);
    }
  }

  /** After a successful load of a non-empty document every present key's value is stored (scaled, clamped or guarded). */
  lemma LoadStoresDocument(s: StatusState, json: Doc)
    requires json != map[] && StatusLoad(s, Some(json)).outcome.Ok?
    ensures var t := StatusLoad(s, Some(json)).state;
      Reflects(t, json) && t.serialNumber == json["serialNumber"]
  {
    LoadFieldsReflects(s.(hasChanged := false, serialNumber := json["serialNumber"]), json);
    LoadFieldsFrame(s.(hasChanged := false, serialNumber := json["serialNumber"]), json);
  }

  /**
   * Loading a document into a state that reflects it returns false and changes
   * only the serial number: the serial is copied without its setter, so a new
   * serial alone is no change.
   */
  lemma LoadOfReflectedReportsNoChange(t: StatusState, json: Doc)
    requires "serialNumber" in json && Reflects(t, json)
    requires "currentChargingCurrent" in json || t.chargingCurrent == 0.0
    ensures StatusLoad(t, Some(json)) == Loaded(t.(hasChanged := false, serialNumber := json["serialNumber"]), Ok(false))
  {
    LoadFieldsOfReflected(t.(hasChanged := false, serialNumber := json["serialNumber"]), json);
  }

  /**
   * Loading the same document twice: the second call returns false and leaves
   * the state as the first left it, provided the document sends the current
   * (otherwise the current is divided again, which is no change only at 0).
   */
  lemma LoadTwiceReportsNoChange(s: StatusState, doc: Option<Doc>)
    requires StatusLoad(s, doc).outcome.Ok?
    requires doc.Some? ==> "currentChargingCurrent" in doc.value || StatusLoad(s, doc).state.chargingCurrent == 0.0
    ensures var t := StatusLoad(s, doc).state;
      StatusLoad(t, doc) == Loaded(t.(hasChanged := false), Ok(false))
  {
    if doc.Some? && doc.value != map[] {
      var t := StatusLoad(s, doc).state;
      LoadStoresDocument(s, doc.value);
      LoadOfReflectedReportsNoChange(t, doc.value);
    }
  }

  // ---------------------------------------------------------------------------
  // The setters with rules of their own

  /** Power above 32000 is stored as 0, any other number as sent; a non-number raises. */
  lemma PowerClamp(s: StatusState, v: Value)
    ensures AsNumber(v).None? ==> WithChargingPower(s, v) == Err(TypeError("currentChargingPower"))
    ensures AsNumber(v).Some? ==> WithChargingPower(s, v).Ok?
    ensures AsNumber(v).Some? ==> var t := WithChargingPower(s, v).value;
      && WithinCeiling(t.chargingPower)
      && (AsNumber(v).value <= PowerCeiling ==> Equal(t.chargingPower, v))
      && (AsNumber(v).value > PowerCeiling ==> Equal(t.chargingPower, Int(0)))
      && (t.hasChanged <==> s.hasChanged || t.chargingPower != s.chargingPower)
      && t == s.(chargingPower := t.chargingPower, hasChanged := t.hasChanged)
  {
  }

  /** The current is stored in amperes, never negative: a non-negative reading is recovered by multiplying by 1000. */
  lemma CurrentScaling(s: StatusState, v: Value)
    ensures AsNumber(v).None? ==> WithChargingCurrent(s, v) == Err(TypeError("currentChargingCurrent"))
    ensures AsNumber(v).Some? ==> WithChargingCurrent(s, v).Ok?
    ensures AsNumber(v).Some? ==> var n, t := AsNumber(v).value, WithChargingCurrent(s, v).value;
      && t.chargingCurrent >= 0.0
      && (n >= 0.0 ==> t.chargingCurrent * 1000.0 == n)
      && (n <= 0.0 ==> t.chargingCurrent == 0.0)
      && (t.hasChanged <==> s.hasChanged || t.chargingCurrent != s.chargingCurrent)
      && t == s.(chargingCurrent := t.chargingCurrent, hasChanged := t.hasChanged)
  {
  }

  /** Without its key the stored current is fed back and divided by 1000 again: only 0 survives. */
  lemma CurrentRescaledWhenAbsent(s: StatusState)
    requires s.chargingCurrent >= 0.0
    ensures WithChargingCurrent(s, Float(s.chargingCurrent)).Ok?
    ensures var t := WithChargingCurrent(s, Float(s.chargingCurrent)).value;
      && t.chargingCurrent == s.chargingCurrent / 1000.0
      && (t.chargingCurrent == s.chargingCurrent <==> s.chargingCurrent == 0.0)
      && (t.hasChanged <==> s.hasChanged || s.chargingCurrent != 0.0)
  {
  }

  /**
   * The latest-reading guard: an equal value is ignored; with a positive stored
   * reading a value more than 500000 above it is ignored, unflagged; other
   * numbers are stored and flagged; comparing with a non-number raises.
   */
  lemma LatestReadingGuard(s: StatusState, v: Value)
    ensures Equal(s.latestReading, v) ==> WithLatestReading(s, v) == Ok(s)
    ensures !Equal(s.latestReading, v) && AsNumber(s.latestReading).None? ==>
      WithLatestReading(s, v) == Err(TypeError("latestReading"))
    ensures AsNumber(s.latestReading).Some? && AsNumber(s.latestReading).value > 0.0 ==>
      && (!Equal(s.latestReading, v) && AsNumber(v).None? ==> WithLatestReading(s, v) == Err(TypeError("latestReading")))
      && (AsNumber(v).Some? && AsNumber(v).value - AsNumber(s.latestReading).value > MaxReadingJump ==>
            WithLatestReading(s, v) == Ok(s))
    ensures !Equal(s.latestReading, v) && AsNumber(s.latestReading).Some? ==>
      (AsNumber(s.latestReading).value <= 0.0
       || (AsNumber(v).Some? && AsNumber(v).value - AsNumber(s.latestReading).value <= MaxReadingJump)) ==>
      WithLatestReading(s, v) == Ok(s.(latestReading := v, hasChanged := true))
  {
  }

  /** The guard only rejects increases: a lower reading replaces a positive stored one and raises the flag. */
  lemma LatestReadingAcceptsDecrease(s: StatusState, v: Value)
    requires AsNumber(s.latestReading).Some? && AsNumber(v).Some?
    requires AsNumber(v).value < AsNumber(s.latestReading).value
    ensures WithLatestReading(s, v) == Ok(s.(latestReading := v, hasChanged := true))
  {
  }

  // ---------------------------------------------------------------------------

  /** The live status object: its fields, its setters and `load`, with the nested chargers it owns. */
  class GaroStatus {
    var serialNumber: Value
    var connector: Connector
    var mode: Mode
    var currentLimit: Value
    var factoryCurrentLimit: Value
    var switchCurrentLimit: Value
    var powerMode: PowerMode
    var chargingCurrent: real
    var chargingPower: Value
    var sessionEnergy: Value
    var sessionMillis: Value
    var latestReading: Value
    var chargeStatus: Value
    var temperature: Value
    var phases: Value
    var pilotLevel: Value
    var hasChanged: bool
    const mainCharger: Charger.GaroCharger
    const twinCharger: Charger.GaroCharger

    /** The two nested chargers are separate objects. */
    predicate Valid() {
      mainCharger != twinCharger
    }

    function State(): StatusState
      reads this, mainCharger, twinCharger
    {
      StatusState(serialNumber, connector, mode, currentLimit, factoryCurrentLimit, switchCurrentLimit, powerMode,
                  chargingCurrent, chargingPower, sessionEnergy, sessionMillis, latestReading, chargeStatus,
                  temperature, phases, pilotLevel, hasChanged, mainCharger.State(), twinCharger.State())
    }

    /** `GaroStatus()`: the defaults and two fresh chargers, then `load(None)`, which changes nothing. */
    constructor ()
      ensures Valid() && fresh(mainCharger) && fresh(twinCharger)
      ensures State() == InitialStatus
    {
      serialNumber := Int(0);
      connector := Connector.Unknown;
      mode := Mode.Off;
      currentLimit := Int(0);
      factoryCurrentLimit := Int(0);
      switchCurrentLimit := Int(0);
      powerMode := PowerOff;
      chargingCurrent := 0.0;
      chargingPower := Int(0);
      sessionEnergy := Int(0);
      sessionMillis := Int(0);
      latestReading := Int(0);
      chargeStatus := Int(0);
      temperature := Int(0);
      phases := Int(1);
      pilotLevel := Int(0);
      hasChanged := false;
      mainCharger := new Charger.GaroCharger();
      twinCharger := new Charger.GaroCharger();
    }

    method SetSerialNumber(value: Value)
      modifies this
      ensures State() == WithSerialNumber(old(State()), value)
    {
      if Equal(serialNumber, value) { return; }
      serialNumber := value;
      hasChanged := true;
    }

    method SetCurrentLimit(value: Value)
      modifies this
      ensures State() == WithCurrentLimit(old(State()), value)
    {
      if Equal(currentLimit, value) { return; }
      currentLimit := value;
      hasChanged := true;
    }

    method SetFactoryCurrentLimit(value: Value)
      modifies this
      ensures State() == WithFactoryCurrentLimit(old(State()), value)
    {
      if Equal(factoryCurrentLimit, value) { return; }
      factoryCurrentLimit := value;
      hasChanged := true;
    }

    method SetSwitchCurrentLimit(value: Value)
      modifies this
      ensures State() == WithSwitchCurrentLimit(old(State()), value)
    {
      if Equal(switchCurrentLimit, value) { return; }
      switchCurrentLimit := value;
      hasChanged := true;
    }

    method SetSessionEnergy(value: Value)
      modifies this
      ensures State() == WithSessionEnergy(old(State()), value)
    {
      if Equal(sessionEnergy, value) { return; }
      sessionEnergy := value;
      hasChanged := true;
    }

    method SetSessionMillis(value: Value)
      modifies this
      ensures State() == WithSessionMillis(old(State()), value)
    {
      if Equal(sessionMillis, value) { return; }
      sessionMillis := value;
      hasChanged := true;
    }

    method SetChargeStatus(value: Value)
      modifies this
      ensures State() == WithChargeStatus(old(State()), value)
    {
      if Equal(chargeStatus, value) { return; }
      chargeStatus := value;
      hasChanged := true;
    }

    method SetTemperature(value: Value)
      modifies this
      ensures State() == WithTemperature(old(State()), value)
    {
      if Equal(temperature, value) { return; }
      temperature := value;
      hasChanged := true;
    }

    method SetPhases(value: Value)
      modifies this
      ensures State() == WithPhases(old(State()), value)
    {
      if Equal(phases, value) { return; }
      phases := value;
      hasChanged := true;
    }

    method SetPilotLevel(value: Value)
      modifies this
      ensures State() == WithPilotLevel(old(State()), value)
    {
      if Equal(pilotLevel, value) { return; }
      pilotLevel := value;
      hasChanged := true;
    }

    method SetConnector(value: Connector)
      modifies this
      ensures State() == WithConnector(old(State()), value)
    {
      if connector == value { return; }
      connector := value;
      hasChanged := true;
    }

    method SetMode(value: Mode)
      modifies this
      ensures State() == WithMode(old(State()), value)
    {
      if mode == value { return; }
      mode := value;
      hasChanged := true;
    }

    method SetPowerMode(value: PowerMode)
      modifies this
      ensures State() == WithPowerMode(old(State()), value)
    {
      if powerMode == value { return; }
      powerMode := value;
      hasChanged := true;
    }

    /** Raises (returns the error, changing nothing) when the reading is not a number. */
    method SetChargingCurrent(value: Value) returns (failure: Option<Error>)
      modifies this
      ensures match WithChargingCurrent(old(State()), value)
        case Ok(t) => failure.None? && State() == t
        case Err(e) => failure == Some(e) && State() == old(State())
    {
      if AsNumber(value).None? {
        return Some(TypeError("currentChargingCurrent"));
      }
      var scaled := ScaledCurrent(AsNumber(value).value);
      if chargingCurrent != scaled {
        chargingCurrent := scaled;
        hasChanged := true;
      }
      return None;
    }

    /** Raises (returns the error, changing nothing) when the reading is not a number. */
    method SetChargingPower(value: Value) returns (failure: Option<Error>)
      modifies this
      ensures match WithChargingPower(old(State()), value)
        case Ok(t) => failure.None? && State() == t
        case Err(e) => failure == Some(e) && State() == old(State())
    {
      if AsNumber(value).None? {
        return Some(TypeError("currentChargingPower"));
      }
      var clamped := if AsNumber(value).value > PowerCeiling then Int(0) else value;
      if !Equal(chargingPower, clamped) {
        chargingPower := clamped;
        hasChanged := true;
      }
      return None;
    }

    /** Raises (returns the error, changing nothing) when a comparison it needs meets a non-number. */
    method SetLatestReading(value: Value) returns (failure: Option<Error>)
      modifies this
      ensures match WithLatestReading(old(State()), value)
        case Ok(t) => failure.None? && State() == t
        case Err(e) => failure == Some(e) && State() == old(State())
    {
      if Equal(latestReading, value) {
        return None;
      }
      if AsNumber(latestReading).None? {
        return Some(TypeError("latestReading"));
      }
      if AsNumber(latestReading).value > 0.0 {
        if AsNumber(value).None? {
          return Some(TypeError("latestReading"));
        }
        if AsNumber(value).value - AsNumber(latestReading).value > MaxReadingJump {
          return None;
        }
      }
      latestReading := value;
      hasChanged := true;
      return None;
    }

    /** The settings setters of `load`, `connector` to `powerMode`. */
    method ApplySettings(json: Doc)
      modifies this
      ensures State() == MergeSettings(old(State()), json)
    {
      SetConnector(Utils.ReadEnum(json, "connector", ConnectorFromJson, connector));
      SetMode(Utils.ReadEnum(json, "mode", ModeFromJson, mode));
      SetCurrentLimit(Utils.ReadValue(json, "currentLimit", currentLimit));
      SetFactoryCurrentLimit(Utils.ReadValue(json, "factoryCurrentLimit", factoryCurrentLimit));
      SetSwitchCurrentLimit(Utils.ReadValue(json, "switchCurrentLimit", switchCurrentLimit));
      SetPowerMode(Utils.ReadEnum(json, "powerMode", PowerModeFromJson, powerMode));
    }

    /** The session setters of `load`. */
    method ApplySession(json: Doc)
      modifies this
      ensures State() == MergeSession(old(State()), json)
    {
      SetSessionEnergy(Utils.ReadValue(json, "accSessionEnergy", sessionEnergy));
      SetSessionMillis(Utils.ReadValue(json, "accSessionMillis", sessionMillis));
    }

    /** The setters of `load` from `chargeStatus` to `pilotLevel`. */
    method ApplyTail(json: Doc)
      modifies this
      ensures State() == MergeTail(old(State()), json)
    {
      SetChargeStatus(Utils.ReadValue(json, "chargeStatus", chargeStatus));
      SetTemperature(Utils.ReadValue(json, "currentTemperature", temperature));
      SetPhases(Utils.ReadValue(json, "nrOfPhases", phases));
      SetPilotLevel(Utils.ReadValue(json, "pilotLevel", pilotLevel));
    }

    /** The end of `load`: each present nested charger is loaded in place, and a `true` from it raises the flag. */
    method LoadChargers(json: Doc) returns (r: Result<bool, Error>)
      requires Valid()
      modifies this, mainCharger, twinCharger
      ensures State() == LoadNested(old(State()), json).state
      ensures r == LoadNested(old(State()), json).outcome
    {
      if "mainCharger" in json {
        var m := mainCharger.Load(json["mainCharger"]);
        if m.Err? {
          return Err(m.error);
        }
        if m.value {
          hasChanged := true;
        }
      }
      if "twinCharger" in json {
        var t := twinCharger.Load(json["twinCharger"]);
        if t.Err? {
          return Err(t.error);
        }
        if t.value {
          hasChanged := true;
        }
      }
      return Ok(hasChanged);
    }

    /**
     * `load(json)`: the flag is cleared, then the serial number is copied, the
     * setters run in the source's order and each present nested charger is
     * loaded in place. A raise stops the load, keeping what was assigned.
     */
    method Load(doc: Option<Doc>) returns (r: Result<bool, Error>)
      requires Valid()
      modifies this, mainCharger, twinCharger
      ensures State() == StatusLoad(old(State()), doc).state
      ensures r == StatusLoad(old(State()), doc).outcome
    {
      hasChanged := false;
      if doc.None? || doc.value == map[] {
        return Ok(false);
      }
      var json := doc.value;
      if "serialNumber" !in json {
        return Err(KeyError("serialNumber"));
      }
      serialNumber := json["serialNumber"];
      ghost var s0 := State();
      ApplySettings(json);
      var failure := SetChargingCurrent(Utils.ReadValue(json, "currentChargingCurrent", Float(chargingCurrent)));
      if failure.Some? {
        return Err(failure.value);
      }
      assert LoadFields(s0, json) == LoadFromPower(State(), json);
      failure := SetChargingPower(Utils.ReadValue(json, "currentChargingPower", chargingPower));
      if failure.Some? {
        return Err(failure.value);
      }
      ghost var s2 := State();
      assert LoadFields(s0, json) == LoadFromSession(s2, json);
      ApplySession(json);
      failure := SetLatestReading(Utils.ReadValue(json, "latestReading", latestReading));
      if failure.Some? {
        return Err(failure.value);
      }
      assert LoadFields(s0, json) == LoadNested(MergeTail(State(), json), json);
      ApplyTail(json);
      r := LoadChargers(json);
    }
  }
}
