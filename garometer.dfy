/**
 * The energy meter's readings: custom_components/garo_wallbox/garo/garometer.py.
 * Raw readings are stored as sent; the getters scale them by the divisors
 * fixed at construction.
 */
module Meter {
  import opened Wrappers
  import opened Json
  import opened Loading
  import Utils

  /** Snapshot of a `GaroMeter`'s fields. */
  datatype MeterState = MeterState(
    currentDivider: real,
    powerDivider: real,
    serialNumber: Value,
    meterType: Value,
    l1Current: Value,
    l2Current: Value,
    l3Current: Value,
    l1Power: Value,
    l2Power: Value,
    l3Power: Value,
    apparentPower: Value,
    accumulatedEnergy: Value,
    hasChanged: bool)
  {
    /** The stored raw readings, in the order `load` assigns them. */
    function Readings(): seq<Value> {
      [serialNumber, meterType, l1Current, l2Current, l3Current, l1Power, l2Power, l3Power, apparentPower, accumulatedEnergy]
    }
  }

  /** The JSON keys `load` reads, aligned with `Readings()`. */
  const MeterKeys: seq<string> :=
    ["meterSerial", "type", "phase1Current", "phase2Current", "phase3Current", "phase1InstPower", "phase2InstPower", "phase3InstPower", "apparentPower", "accEnergy"]

  /** A meter built without a document: serial `""`, type 0, every reading `0.0`. */
  function InitialMeter(currentDivider: real, powerDivider: real): MeterState {
    MeterState(currentDivider, powerDivider, Str(""), Int(0), Float(0.0), Float(0.0), Float(0.0),
               Float(0.0), Float(0.0), Float(0.0), Float(0.0), Float(0.0), false)
  }

  // The property setters: store the raw value and raise the change flag only when it differs.

  function WithSerialNumber(s: MeterState, v: Value): MeterState {
    s.(serialNumber := Assign(s.serialNumber, v), hasChanged := s.hasChanged || !Equal(s.serialNumber, v))
  }

  function WithType(s: MeterState, v: Value): MeterState {
    s.(meterType := Assign(s.meterType, v), hasChanged := s.hasChanged || !Equal(s.meterType, v))
  }

  function WithL1Current(s: MeterState, v: Value): MeterState {
    s.(l1Current := Assign(s.l1Current, v), hasChanged := s.hasChanged || !Equal(s.l1Current, v))
  }

  function WithL2Current(s: MeterState, v: Value): MeterState {
    s.(l2Current := Assign(s.l2Current, v), hasChanged := s.hasChanged || !Equal(s.l2Current, v))
  }

  function WithL3Current(s: MeterState, v: Value): MeterState {
    s.(l3Current := Assign(s.l3Current, v), hasChanged := s.hasChanged || !Equal(s.l3Current, v))
  }

  function WithL1Power(s: MeterState, v: Value): MeterState {
    s.(l1Power := Assign(s.l1Power, v), hasChanged := s.hasChanged || !Equal(s.l1Power, v))
  }

  function WithL2Power(s: MeterState, v: Value): MeterState {
    s.(l2Power := Assign(s.l2Power, v), hasChanged := s.hasChanged || !Equal(s.l2Power, v))
  }

  function WithL3Power(s: MeterState, v: Value): MeterState {
    s.(l3Power := Assign(s.l3Power, v), hasChanged := s.hasChanged || !Equal(s.l3Power, v))
  }

  function WithApparentPower(s: MeterState, v: Value): MeterState {
    s.(apparentPower := Assign(s.apparentPower, v), hasChanged := s.hasChanged || !Equal(s.apparentPower, v))
  }

  function WithAccumulatedEnergy(s: MeterState, v: Value): MeterState {
    s.(accumulatedEnergy := Assign(s.accumulatedEnergy, v), hasChanged := s.hasChanged || !Equal(s.accumulatedEnergy, v))
  }

  /** The ten setters of `load`, in order, each reading its key with the stored value as default. */
  function MergeReadings(s: MeterState, json: Doc): MeterState {
    var s1 := WithSerialNumber(s, Utils.ReadValue(json, "meterSerial", s.serialNumber));
    var s2 := WithType(s1, Utils.ReadValue(json, "type", s1.meterType));
    var s3 := WithL1Current(s2, Utils.ReadValue(json, "phase1Current", s2.l1Current));
    var s4 := WithL2Current(s3, Utils.ReadValue(json, "phase2Current", s3.l2Current));
    var s5 := WithL3Current(s4, Utils.ReadValue(json, "phase3Current", s4.l3Current));
    var s6 := WithL1Power(s5, Utils.ReadValue(json, "phase1InstPower", s5.l1Power));
    var s7 := WithL2Power(s6, Utils.ReadValue(json, "phase2InstPower", s6.l2Power));
    var s8 := WithL3Power(s7, Utils.ReadValue(json, "phase3InstPower", s7.l3Power));
    var s9 := WithApparentPower(s8, Utils.ReadValue(json, "apparentPower", s8.apparentPower));
    WithAccumulatedEnergy(s9, Utils.ReadValue(json, "accEnergy", s9.accumulatedEnergy))
  }

  /**
   * `GaroMeter.load(json)`: clear the flag; None or an empty object returns
   * false; otherwise merge the readings. The state's flag is what `load` returns.
   */
  function MeterLoad(s: MeterState, doc: Option<Doc>): MeterState {
    var s0 := s.(hasChanged := false);
    if doc.None? || doc.value == map[] then s0 else MergeReadings(s0, doc.value)
  }

  /**
   * `raw / divisor` as Python computes it: a non-number raises TypeError, a
   * zero divisor ZeroDivisionError; the quotient times the divisor gives the
   * raw reading back.
   */
  predicate IsQuotient(r: Result<real, Error>, raw: Value, divisor: real) {
    match r
    case Ok(q) => AsNumber(raw).Some? && divisor != 0.0 && q * divisor == AsNumber(raw).value
    case Err(e) => if AsNumber(raw).None? then e.TypeError? else divisor == 0.0 && e == ZeroDivisionError
  }

  function Divide(raw: Value, divisor: real, key: string): (r: Result<real, Error>)
    ensures IsQuotient(r, raw, divisor)
  {
    match AsNumber(raw)
    case None => Err(TypeError(key))
    case Some(n) => if divisor == 0.0 then Err(ZeroDivisionError) else Ok(n / divisor)
  }

  // ---------------------------------------------------------------------------
  // Properties of a load

  /** Merging puts the document's value (or one equal to it) in every field whose key is present, and keeps the rest. */
  lemma MergeReadingsFields(s: MeterState, json: Doc)
    ensures |MergeReadings(s, json).Readings()| == |MeterKeys| == 10
    ensures forall i | 0 <= i < 10 ::
      if MeterKeys[i] in json then Equal(MergeReadings(s, json).Readings()[i], json[MeterKeys[i]])
      else MergeReadings(s, json).Readings()[i] == s.Readings()[i]
    ensures MergeReadings(s, json).currentDivider == s.currentDivider
    ensures MergeReadings(s, json).powerDivider == s.powerDivider
  {
    MergeReadingsClosed(s, json);
  }

  /** Each reading ends up as its setter leaves it, reading its own key with the stored value as default. */
  lemma MergeReadingsClosed(s: MeterState, json: Doc)
    ensures forall i | 0 <= i < 10 ::
      MergeReadings(s, json).Readings()[i] == Assign(s.Readings()[i], Utils.ReadValue(json, MeterKeys[i], s.Readings()[i]))
    ensures MergeReadings(s, json).currentDivider == s.currentDivider
    ensures MergeReadings(s, json).powerDivider == s.powerDivider
  {
  }

  /** Merging raises the flag exactly when some reading changes (or it was already raised). */
  lemma MergeReadingsFlag(s: MeterState, json: Doc)
    ensures MergeReadings(s, json).hasChanged <==> s.hasChanged || MergeReadings(s, json).Readings() != s.Readings()
  {
    var t := MergeReadings(s, json);
    if !s.hasChanged && t.Readings() != s.Readings() {
      var i :| 0 <= i < 10 && t.Readings()[i] != s.Readings()[i];
    }
  }

  /** A fresh meter has serial `""`, type 0, all readings 0.0 and the divisors it was given. */
  lemma InitialMeterDefaults(currentDivider: real, powerDivider: real)
    ensures var m := InitialMeter(currentDivider, powerDivider);
      && m.currentDivider == currentDivider && m.powerDivider == powerDivider
      && m.serialNumber == Str("") && m.meterType == Int(0) && !m.hasChanged
      && forall i | 2 <= i < 10 :: m.Readings()[i] == Float(0.0)
  {
  }

  /** None or an empty object: the flag is cleared, `load` returns false and nothing else changes. */
  lemma LoadOfNothing(s: MeterState, doc: Option<Doc>)
    requires doc.None? || doc.value == map[]
    ensures MeterLoad(s, doc) == s.(hasChanged := false)
  {
  }

  /**
   * `load` stores each present key's value (up to Python `==`), keeps every
   * field whose key is absent, never touches the divisors, and returns true
   * exactly when some reading changed.
   */
  lemma LoadReportsChange(s: MeterState, doc: Option<Doc>)
    ensures var t := MeterLoad(s, doc);
      && t.currentDivider == s.currentDivider && t.powerDivider == s.powerDivider
      && (t.hasChanged <==> t.Readings() != s.Readings())
      && (doc.Some? ==> forall i | 0 <= i < 10 ::
            if MeterKeys[i] in doc.value then Equal(t.Readings()[i], doc.value[MeterKeys[i]])
            else t.Readings()[i] == s.Readings()[i])
  {
    if doc.Some? && doc.value != map[] {
      MergeReadingsFields(s.(hasChanged := false), doc.value);
      MergeReadingsFlag(s.(hasChanged := false), doc.value);
    }
  }

  /** Loading the same document twice: the second call returns false and changes nothing. */
  lemma LoadTwiceReportsNoChange(s: MeterState, doc: Option<Doc>)
    ensures var t := MeterLoad(s, doc);
      MeterLoad(t, doc) == t.(hasChanged := false)
  {
    if doc.Some? && doc.value != map[] {
      var t := MeterLoad(s, doc);
      var t0 := t.(hasChanged := false);
      MergeReadingsFields(s.(hasChanged := false), doc.value);
      MergeReadingsFields(t0, doc.value);
      MergeReadingsFlag(t0, doc.value);
      var u := MergeReadings(t0, doc.value);
      forall i | 0 <= i < 10 ensures u.Readings()[i] == t0.Readings()[i] {
        if MeterKeys[i] in doc.value {
          EqualIsEquivalence(t0.Readings()[i], doc.value[MeterKeys[i]], u.Readings()[i]);
        }
      }
    }
  }

  /** An energy meter: raw readings, the setters, `load` and the scaled getters. */
  class GaroMeter {
    const currentDivider: real
    const powerDivider: real
    var serialNumber: Value
    var meterType: Value
    var l1Current: Value
    var l2Current: Value
    var l3Current: Value
    var l1Power: Value
    var l2Power: Value
    var l3Power: Value
    var apparentPower: Value
    var accumulatedEnergy: Value
    var hasChanged: bool

    function State(): MeterState
      reads this
    {
      MeterState(currentDivider, powerDivider, serialNumber, meterType, l1Current, l2Current, l3Current, l1Power, l2Power, l3Power, apparentPower, accumulatedEnergy, hasChanged)
    }

    /** `GaroMeter(json, current_divider, power_divider)`: the defaults, then `load(json)`. */
    constructor (doc: Option<Doc>, currentDivider: real := 1.0, powerDivider: real := 1.0)
      ensures State() == MeterLoad(InitialMeter(currentDivider, powerDivider), doc)
    {
      this.currentDivider := currentDivider;
      this.powerDivider := powerDivider;
      serialNumber := Str("");
      meterType := Int(0);
      l1Current := Float(0.0);
      l2Current := Float(0.0);
      l3Current := Float(0.0);
      l1Power := Float(0.0);
      l2Power := Float(0.0);
      l3Power := Float(0.0);
      apparentPower := Float(0.0);
      accumulatedEnergy := Float(0.0);
      hasChanged := false;
      new;
      var _ := Load(doc);
    }

    method SetSerialNumber(value: Value)
      modifies this
      ensures State() == WithSerialNumber(old(State()), value)
    {
      if Equal(serialNumber, value) { return; }
      serialNumber := value;
      hasChanged := true;
    }

    method SetType(value: Value)
      modifies this
      ensures State() == WithType(old(State()), value)
    {
      if Equal(meterType, value) { return; }
      meterType := value;
      hasChanged := true;
    }

    method SetL1Current(value: Value)
      modifies this
      ensures State() == WithL1Current(old(State()), value)
    {
      if Equal(l1Current, value) { return; }
      l1Current := value;
      hasChanged := true;
    }

    method SetL2Current(value: Value)
      modifies this
      ensures State() == WithL2Current(old(State()), value)
    {
      if Equal(l2Current, value) { return; }
      l2Current := value;
      hasChanged := true;
    }

    method SetL3Current(value: Value)
      modifies this
      ensures State() == WithL3Current(old(State()), value)
    {
      if Equal(l3Current, value) { return; }
      l3Current := value;
      hasChanged := true;
    }

    method SetL1Power(value: Value)
      modifies this
      ensures State() == WithL1Power(old(State()), value)
    {
      if Equal(l1Power, value) { return; }
      l1Power := value;
      hasChanged := true;
    }

    method SetL2Power(value: Value)
      modifies this
      ensures State() == WithL2Power(old(State()), value)
    {
      if Equal(l2Power, value) { return; }
      l2Power := value;
      hasChanged := true;
    }

    method SetL3Power(value: Value)
      modifies this
      ensures State() == WithL3Power(old(State()), value)
    {
      if Equal(l3Power, value) { return; }
      l3Power := value;
      hasChanged := true;
    }

    method SetApparentPower(value: Value)
      modifies this
      ensures State() == WithApparentPower(old(State()), value)
    {
      if Equal(apparentPower, value) { return; }
      apparentPower := value;
      hasChanged := true;
    }

    method SetAccumulatedEnergy(value: Value)
      modifies this
      ensures State() == WithAccumulatedEnergy(old(State()), value)
    {
      if Equal(accumulatedEnergy, value) { return; }
      accumulatedEnergy := value;
      hasChanged := true;
    }

    /** `load(json)`: merge the document's readings and report whether any changed. */
    method Load(doc: Option<Doc>) returns (changed: bool)
      modifies this
      ensures State() == MeterLoad(old(State()), doc)
      ensures changed == State().hasChanged
    {
      hasChanged := false;
      if doc.None? || doc.value == map[] {
        return false;
      }
      var json := doc.value;
      SetSerialNumber(Utils.ReadValue(json, "meterSerial", serialNumber));
      SetType(Utils.ReadValue(json, "type", meterType));
      SetL1Current(Utils.ReadValue(json, "phase1Current", l1Current));
      SetL2Current(Utils.ReadValue(json, "phase2Current", l2Current));
      SetL3Current(Utils.ReadValue(json, "phase3Current", l3Current));
      SetL1Power(Utils.ReadValue(json, "phase1InstPower", l1Power));
      SetL2Power(Utils.ReadValue(json, "phase2InstPower", l2Power));
      SetL3Power(Utils.ReadValue(json, "phase3InstPower", l3Power));
      SetApparentPower(Utils.ReadValue(json, "apparentPower", apparentPower));
      SetAccumulatedEnergy(Utils.ReadValue(json, "accEnergy", accumulatedEnergy));
      return hasChanged;
    }

    // The getters: raw readings divided by the divisor of their kind.

    function PhaseOneCurrent(): (r: Result<real, Error>)
      reads this
      ensures IsQuotient(r, l1Current, currentDivider)
    {
      Divide(l1Current, currentDivider, "l1_current")
    }

    function PhaseTwoCurrent(): (r: Result<real, Error>)
      reads this
      ensures IsQuotient(r, l2Current, currentDivider)
    {
      Divide(l2Current, currentDivider, "l2_current")
    }

    function PhaseThreeCurrent(): (r: Result<real, Error>)
      reads this
      ensures IsQuotient(r, l3Current, currentDivider)
    {
      Divide(l3Current, currentDivider, "l3_current")
    }

    function PhaseOnePower(): (r: Result<real, Error>)
      reads this
      ensures IsQuotient(r, l1Power, powerDivider)
    {
      Divide(l1Power, powerDivider, "l1_power")
    }

    function PhaseTwoPower(): (r: Result<real, Error>)
      reads this
      ensures IsQuotient(r, l2Power, powerDivider)
    {
      Divide(l2Power, powerDivider, "l2_power")
    }

    function PhaseThreePower(): (r: Result<real, Error>)
      reads this
      ensures IsQuotient(r, l3Power, powerDivider)
    {
      Divide(l3Power, powerDivider, "l3_power")
    }

    function ApparentPowerReading(): (r: Result<real, Error>)
      reads this
      ensures IsQuotient(r, apparentPower, powerDivider)
    {
      Divide(apparentPower, powerDivider, "apparent_power")
    }

    /** The energy is in watt-hours on the wire and reported in kilowatt-hours, whatever the divisors. */
    function EnergyReading(): (r: Result<real, Error>)
      reads this
      ensures IsQuotient(r, accumulatedEnergy, 1000.0)
      ensures r.Ok? <==> AsNumber(accumulatedEnergy).Some?
    {
      Divide(accumulatedEnergy, 1000.0, "accumulated_energy")
    }
  }
}
