/**
 * A charging unit nested in a status document (main or twin charger):
 * custom_components/garo_wallbox/garo/garocharger.py.
 */
module Charger {
  import opened Wrappers
  import opened Json
  import opened Loading
  import Utils

  /** Snapshot of a `GaroCharger`'s fields. */
  datatype ChargerState = ChargerState(
    isValid: bool,
    reference: Value,
    serialNumber: Value,
    online: Value,
    loadBalanced: Value,
    phase: Value,
    productId: Value,
    chargeStatus: Value,
    pilotLevel: Value,
    hasChanged: bool)
  {
    /** The stored readings, in the order `load` assigns them. */
    function Readings(): seq<Value> {
      [reference, serialNumber, online, loadBalanced, phase, productId, chargeStatus, pilotLevel]
    }
  }

  /** The JSON keys `load` reads, aligned with `Readings()`. */
  const ChargerKeys: seq<string> :=
    ["reference", "serialNumber", "online", "loadBalanced", "phase", "productId", "chargeStatus", "pilotLevel"]

  /** A charger built without a document. */
  const InitialCharger: ChargerState :=
    ChargerState(false, Str(""), Int(0), Bool(false), Bool(false), Int(0), Int(0), Int(0), Int(0), false)

  // The property setters: store the value and raise the change flag only when it differs.

  function WithReference(s: ChargerState, v: Value): ChargerState {
    s.(reference := Assign(s.reference, v), hasChanged := s.hasChanged || !Equal(s.reference, v))
  }

  function WithSerialNumber(s: ChargerState, v: Value): ChargerState {
    s.(serialNumber := Assign(s.serialNumber, v), hasChanged := s.hasChanged || !Equal(s.serialNumber, v))
  }

  function WithOnline(s: ChargerState, v: Value): ChargerState {
    s.(online := Assign(s.online, v), hasChanged := s.hasChanged || !Equal(s.online, v))
  }

  function WithLoadBalanced(s: ChargerState, v: Value): ChargerState {
    s.(loadBalanced := Assign(s.loadBalanced, v), hasChanged := s.hasChanged || !Equal(s.loadBalanced, v))
  }

  function WithPhase(s: ChargerState, v: Value): ChargerState {
    s.(phase := Assign(s.phase, v), hasChanged := s.hasChanged || !Equal(s.phase, v))
  }

  function WithProductId(s: ChargerState, v: Value): ChargerState {
    s.(productId := Assign(s.productId, v), hasChanged := s.hasChanged || !Equal(s.productId, v))
  }

  function WithChargeStatus(s: ChargerState, v: Value): ChargerState {
    s.(chargeStatus := Assign(s.chargeStatus, v), hasChanged := s.hasChanged || !Equal(s.chargeStatus, v))
  }

  function WithPilotLevel(s: ChargerState, v: Value): ChargerState {
    s.(pilotLevel := Assign(s.pilotLevel, v), hasChanged := s.hasChanged || !Equal(s.pilotLevel, v))
  }

  /** The eight setters of `load`, in order, each reading its key with the stored value as default. */
  function MergeReadings(s: ChargerState, json: Doc): ChargerState {
    var s1 := WithReference(s, Utils.ReadValue(json, "reference", s.reference));
    var s2 := WithSerialNumber(s1, Utils.ReadValue(json, "serialNumber", s1.serialNumber));
    var s3 := WithOnline(s2, Utils.ReadValue(json, "online", s2.online));
    var s4 := WithLoadBalanced(s3, Utils.ReadValue(json, "loadBalanced", s3.loadBalanced));
    var s5 := WithPhase(s4, Utils.ReadValue(json, "phase", s4.phase));
    var s6 := WithProductId(s5, Utils.ReadValue(json, "productId", s5.productId));
    var s7 := WithChargeStatus(s6, Utils.ReadValue(json, "chargeStatus", s6.chargeStatus));
    WithPilotLevel(s7, Utils.ReadValue(json, "pilotLevel", s7.pilotLevel))
  }

  /**
   * `GaroCharger.load(doc)`. None returns false and touches nothing; any other
   * value marks the charger valid; an object is merged and the flag read and
   * reset; a value that is neither (Python's `in` fails on it) raises.
   */
  function ChargerLoad(s: ChargerState, doc: Value): Loaded<ChargerState> {
    match doc
    case Null => Loaded(s, Ok(false))
    case Object(json) =>
      var merged := MergeReadings(s.(isValid := true), json);
      Loaded(merged.(hasChanged := false), Ok(merged.hasChanged))
    case _ => Loaded(s.(isValid := true), Err(TypeError("reference")))
  }

  /** Merging puts the document's value (or one equal to it) in every field whose key is present, and keeps the rest. */
  lemma MergeReadingsFields(s: ChargerState, json: Doc)
    ensures |MergeReadings(s, json).Readings()| == |ChargerKeys| == 8
    ensures forall i | 0 <= i < 8 ::
      if ChargerKeys[i] in json then Equal(MergeReadings(s, json).Readings()[i], json[ChargerKeys[i]])
      else MergeReadings(s, json).Readings()[i] == s.Readings()[i]
    ensures MergeReadings(s, json).isValid == s.isValid
  {
    MergeReadingsClosed(s, json);
  }

  /** Each reading ends up as its setter leaves it, reading its own key with the stored value as default. */
  lemma MergeReadingsClosed(s: ChargerState, json: Doc)
    ensures forall i | 0 <= i < 8 ::
      MergeReadings(s, json).Readings()[i] == Assign(s.Readings()[i], Utils.ReadValue(json, ChargerKeys[i], s.Readings()[i]))
    ensures MergeReadings(s, json).isValid == s.isValid
  {
  }

  /** Merging raises the flag exactly when some reading changes (or it was already raised). */
  lemma MergeReadingsFlag(s: ChargerState, json: Doc)
    ensures MergeReadings(s, json).hasChanged <==> s.hasChanged || MergeReadings(s, json).Readings() != s.Readings()
  {
    var t := MergeReadings(s, json);
    if !s.hasChanged && t.Readings() != s.Readings() {
      var i :| 0 <= i < 8 && t.Readings()[i] != s.Readings()[i];
    }
  }

  /** A fresh charger is invalid, with an empty reference, serial 0, offline, phase 0 and product 0. */
  lemma InitialChargerDefaults()
    ensures !InitialCharger.isValid && !InitialCharger.hasChanged
    ensures InitialCharger.reference == Str("") && InitialCharger.serialNumber == Int(0)
    ensures InitialCharger.online == Bool(false) && InitialCharger.phase == Int(0)
    ensures InitialCharger.productId == Int(0)
  {
  }

  /** `load(None)` returns false and changes nothing. */
  lemma LoadNoneChangesNothing(s: ChargerState)
    ensures ChargerLoad(s, Null) == Loaded(s, Ok(false))
  {
  }

  /**
   * Loading any object, even an empty one, makes the charger valid; each present
   * key's value is stored (up to Python `==`), each absent key leaves its field
   * alone, and the change flag is reset afterwards.
   */
  lemma LoadMergesObject(s: ChargerState, json: Doc)
    ensures var r := ChargerLoad(s, Object(json));
      && r.state.isValid && !r.state.hasChanged && r.outcome.Ok?
      && (forall i | 0 <= i < 8 ::
            if ChargerKeys[i] in json then Equal(r.state.Readings()[i], json[ChargerKeys[i]])
            else r.state.Readings()[i] == s.Readings()[i])
  {
    MergeReadingsFields(s.(isValid := true), json);
  }

  /** `load` returns true iff the flag was already raised or some reading changed. */
  lemma LoadReportsChange(s: ChargerState, doc: Value)
    ensures var r := ChargerLoad(s, doc);
      r.outcome.Ok? ==> (r.outcome.value <==> doc.Object? && (s.hasChanged || r.state.Readings() != s.Readings()))
  {
    if doc.Object? {
      MergeReadingsFlag(s.(isValid := true), doc.fields);
    }
  }

  /** Loading the same document twice: the second call reports no change and leaves the charger as it was. */
  lemma LoadTwiceReportsNoChange(s: ChargerState, doc: Value)
    requires ChargerLoad(s, doc).outcome.Ok?
    ensures var t := ChargerLoad(s, doc).state;
      ChargerLoad(t, doc) == Loaded(t, Ok(false))
  {
    if doc.Object? {
      var t := ChargerLoad(s, doc).state;
      MergeReadingsFields(s.(isValid := true), doc.fields);
      MergeReadingsFields(t, doc.fields);
      MergeReadingsFlag(t, doc.fields);
      var u := MergeReadings(t, doc.fields);
      forall i | 0 <= i < 8 ensures u.Readings()[i] == t.Readings()[i] {
        if ChargerKeys[i] in doc.fields {
          EqualIsEquivalence(t.Readings()[i], doc.fields[ChargerKeys[i]], u.Readings()[i]);
        }
      }
    }
  }

  /** A charging unit: the fields, the property setters and `load`. */
  class GaroCharger {
    var isValid: bool
    var reference: Value
    var serialNumber: Value
    var online: Value
    var loadBalanced: Value
    var phase: Value
    var productId: Value
    var chargeStatus: Value
    var pilotLevel: Value
    var hasChanged: bool

    function State(): ChargerState
      reads this
    {
      ChargerState(isValid, reference, serialNumber, online, loadBalanced, phase, productId,
                   chargeStatus, pilotLevel, hasChanged)
    }

    /** `GaroCharger()`: the defaults, then `load(None)`, which changes nothing. */
    constructor ()
      ensures State() == InitialCharger
    {
      isValid := false;
      reference := Str("");
      serialNumber := Int(0);
      online := Bool(false);
      loadBalanced := Bool(false);
      phase := Int(0);
      productId := Int(0);
      chargeStatus := Int(0);
      pilotLevel := Int(0);
      hasChanged := false;
    }

    method SetReference(value: Value)
      modifies this
      ensures State() == WithReference(old(State()), value)
    {
      if Equal(reference, value) { return; }
      reference := value;
      hasChanged := true;
    }

    method SetSerialNumber(value: Value)
      modifies this
      ensures State() == WithSerialNumber(old(State()), value)
    {
      if Equal(serialNumber, value) { return; }
      serialNumber := value;
      hasChanged := true;
    }

    method SetOnline(value: Value)
      modifies this
      ensures State() == WithOnline(old(State()), value)
    {
      if Equal(online, value) { return; }
      online := value;
      hasChanged := true;
    }

    method SetLoadBalanced(value: Value)
      modifies this
      ensures State() == WithLoadBalanced(old(State()), value)
    {
      if Equal(loadBalanced, value) { return; }
      loadBalanced := value;
      hasChanged := true;
    }

    method SetPhase(value: Value)
      modifies this
      ensures State() == WithPhase(old(State()), value)
    {
      if Equal(phase, value) { return; }
      phase := value;
      hasChanged := true;
    }

    method SetProductId(value: Value)
      modifies this
      ensures State() == WithProductId(old(State()), value)
    {
      if Equal(productId, value) { return; }
      productId := value;
      hasChanged := true;
    }

    method SetChargeStatus(value: Value)
      modifies this
      ensures State() == WithChargeStatus(old(State()), value)
    {
      if Equal(chargeStatus, value) { return; }
      chargeStatus := value;
      hasChanged := true;
    }

    method SetPilotLevel(value: Value)
      modifies this
      ensures State() == WithPilotLevel(old(State()), value)
    {
      if Equal(pilotLevel, value) { return; }
      pilotLevel := value;
      hasChanged := true;
    }

    /** `load(doc)`: merge `doc` into this charger and report whether anything changed. */
    method Load(doc: Value) returns (r: Result<bool, Error>)
      modifies this
      ensures State() == ChargerLoad(old(State()), doc).state
      ensures r == ChargerLoad(old(State()), doc).outcome
    {
      if doc.Null? {
        return Ok(false);
      }
      isValid := true;
      if !doc.Object? {
        return Err(TypeError("reference"));
      }
      var json := doc.fields;
      SetReference(Utils.ReadValue(json, "reference", reference));
      SetSerialNumber(Utils.ReadValue(json, "serialNumber", serialNumber));
      SetOnline(Utils.ReadValue(json, "online", online));
      SetLoadBalanced(Utils.ReadValue(json, "loadBalanced", loadBalanced));
      SetPhase(Utils.ReadValue(json, "phase", phase));
      SetProductId(Utils.ReadValue(json, "productId", productId));
      SetChargeStatus(Utils.ReadValue(json, "chargeStatus", chargeStatus));
      SetPilotLevel(Utils.ReadValue(json, "pilotLevel", pilotLevel));
      var changed := hasChanged;
      hasChanged := false;
      return Ok(changed);
    }
  }
}
