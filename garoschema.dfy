/**
 * One charging-schedule entry: custom_components/garo_wallbox/garo/garoschema.py.
 * The weekday enum is not part of this model: the schedule is generic in the
 * day type `D`, and receives the enum's by-value decoder and its MONDAY member.
 */
module Schema {
  import opened Wrappers
  import opened Json
  import opened Loading
  import opened TimeOfDay
  import Utils

  /** Snapshot of a `GaroSchema`'s fields. */
  datatype SchemaState<D> = SchemaState(
    id: Value,
    start: Time,
    stop: Time,
    day: D,
    chargeLimit: Value,
    hasChanged: bool)

  /** A schedule built without a document: id -1, 00:00:00 to 00:00:00, on MONDAY, limit 0. */
  function InitialSchema<D>(monday: D): SchemaState<D> {
    SchemaState(Int(-1), Clock(0, 0, 0), Clock(0, 0, 0), monday, Int(0), false)
  }

  // The property setters: store the value and raise the change flag only when it differs.

  function WithStart<D>(s: SchemaState<D>, t: Time): SchemaState<D> {
    s.(start := t, hasChanged := s.hasChanged || s.start != t)
  }

  function WithStop<D>(s: SchemaState<D>, t: Time): SchemaState<D> {
    s.(stop := t, hasChanged := s.hasChanged || s.stop != t)
  }

  function WithDayOfTheWeek<D(==)>(s: SchemaState<D>, d: D): SchemaState<D> {
    s.(day := d, hasChanged := s.hasChanged || s.day != d)
  }

  function WithChargeLimit<D>(s: SchemaState<D>, v: Value): SchemaState<D> {
    s.(chargeLimit := Assign(s.chargeLimit, v), hasChanged := s.hasChanged || !Equal(s.chargeLimit, v))
  }

  /** `datetime.strptime(v, "%H:%M:%S").time()`: TypeError for a non-string, ValueError for a malformed one. */
  function TimeFromValue(v: Value, key: string): (r: Result<Time, Error>)
    ensures r.Ok? <==> v.Str? && Parse(v.s).Some?
    ensures r.Ok? ==> r.value == Parse(v.s).value
    ensures r.Err? ==> r.error == (if v.Str? then ValueError(key) else TypeError(key))
  {
    match v
    case Str(text) =>
      (match Parse(text)
       case Some(t) => Ok(t)
       case None => Err(ValueError(key)))
    case _ => Err(TypeError(key))
  }

  /**
   * `GaroSchema.load(json)`. None or an empty object returns false before the
   * flag is cleared. Otherwise the flag is cleared; while the stored id is
   * below 1 it is replaced by `schemaId` (or -1) and the flag raised; then the
   * start and stop times (the stored time, formatted, when the key is absent),
   * the weekday and the charge limit go through their setters.
   */
  function SchemaLoad<D(==)>(s: SchemaState<D>, doc: Option<Doc>, decodeDay: Value -> Option<D>): Loaded<SchemaState<D>> {
    if doc.None? || doc.value == map[] then Loaded(s, Ok(false))
    else
      var s0 := s.(hasChanged := false);
      match AsNumber(s.id)
      case None => Loaded(s0, Err(TypeError("schemaId")))
      case Some(n) =>
        var s1 := if n < 1.0 then s0.(id := Utils.ReadValue(doc.value, "schemaId", Int(-1)), hasChanged := true) else s0;
        LoadTimes(s1, doc.value, decodeDay)
  }

  /** The setters of `load`, from `start` on. */
  function LoadTimes<D(==)>(s: SchemaState<D>, json: Doc, decodeDay: Value -> Option<D>): Loaded<SchemaState<D>> {
    match TimeFromValue(Utils.ReadValue(json, "start", Str(Format(s.start))), "start")
    case Err(e) => Loaded(s, Err(e))
    case Ok(start) =>
      var s1 := WithStart(s, start);
      match TimeFromValue(Utils.ReadValue(json, "stop", Str(Format(s1.stop))), "stop")
      case Err(e) => Loaded(s1, Err(e))
      case Ok(stop) =>
        var s2 := WithStop(s1, stop);
        var s3 := WithDayOfTheWeek(s2, Utils.ReadEnum(json, "weekday", decodeDay, s2.day));
        var s4 := WithChargeLimit(s3, Utils.ReadValue(json, "chargeLimit", s3.chargeLimit));
        Loaded(s4, Ok(s4.hasChanged))
  }

  /** The `id` property: the stored id once it is at least 1; ValueError before that. */
  function IdOf<D>(s: SchemaState<D>): (r: Result<Value, Error>)
    ensures r.Ok? <==> AsNumber(s.id).Some? && AsNumber(s.id).value >= 1.0
    ensures r.Ok? ==> r.value == s.id
    ensures r.Err? && AsNumber(s.id).Some? ==> r.error == ValueError("id")
    ensures AsNumber(s.id).None? ==> r.error == TypeError("id")
  {
    match AsNumber(s.id)
    case None => Err(TypeError("id"))
    case Some(n) => if n < 1.0 then Err(ValueError("id")) else Ok(s.id)
  }

  // ---------------------------------------------------------------------------
  // Properties

  /** A fresh schedule: id -1 (so `id` raises), start = stop = 00:00:00, MONDAY, limit 0, no change. */
  lemma InitialSchemaDefaults<D>(monday: D)
    ensures var s := InitialSchema(monday);
      && s.id == Int(-1) && IdOf(s) == Err(ValueError("id"))
      && s.start == s.stop == Clock(0, 0, 0) && Format(s.start) == "00:00:00"
      && s.day == monday && s.chargeLimit == Int(0) && !s.hasChanged
  {
  }

  /** None or an empty object: `load` returns false and changes nothing, not even the flag. */
  lemma LoadOfNothing<D>(s: SchemaState<D>, doc: Option<Doc>, decodeDay: Value -> Option<D>)
    requires doc.None? || doc.value == map[]
    ensures SchemaLoad(s, doc, decodeDay) == Loaded(s, Ok(false))
  {
  }

  /** Once the id is at least 1, no load changes it. */
  lemma IdFrozenOnceSet<D>(s: SchemaState<D>, doc: Option<Doc>, decodeDay: Value -> Option<D>)
    requires AsNumber(s.id).Some? && AsNumber(s.id).value >= 1.0
    ensures SchemaLoad(s, doc, decodeDay).state.id == s.id
  {
  }

  /**
   * While the id is below 1, a load of a non-empty document takes `schemaId`
   * (or -1) as the id and reports a change, even when nothing else differs.
   */
  lemma IdAssignedWhileUnset<D>(s: SchemaState<D>, json: Doc, decodeDay: Value -> Option<D>)
    requires json != map[]
    requires AsNumber(s.id).Some? && AsNumber(s.id).value < 1.0
    ensures var r := SchemaLoad(s, Some(json), decodeDay);
      && r.state.id == Utils.ReadValue(json, "schemaId", Int(-1))
      && r.state.hasChanged
      && (r.outcome.Ok? ==> r.outcome.value)
  {
  }

  /**
   * Without `start` (or `stop`) the stored time is formatted and parsed back,
   * which gives the same time; without `weekday` (or with a value no day
   * carries) the day is kept; without `chargeLimit` the limit is kept.
   */
  lemma LoadKeepsAbsentFields<D>(s: SchemaState<D>, json: Doc, decodeDay: Value -> Option<D>)
    ensures var r := SchemaLoad(s, Some(json), decodeDay);
      && ("start" !in json ==> r.state.start == s.start)
      && ("stop" !in json ==> r.state.stop == s.stop)
      && ("weekday" !in json || decodeDay(json["weekday"]).None? ==> r.state.day == s.day)
      && ("chargeLimit" !in json ==> r.state.chargeLimit == s.chargeLimit)
      && ("start" !in json && "stop" !in json && (json == map[] || AsNumber(s.id).Some?) ==> r.outcome.Ok?)
  {
    if json != map[] && AsNumber(s.id).Some? {
      var s0 := s.(hasChanged := false);
      var s1 := if AsNumber(s.id).value < 1.0 then s0.(id := Utils.ReadValue(json, "schemaId", Int(-1)), hasChanged := true) else s0;
      assert SchemaLoad(s, Some(json), decodeDay) == LoadTimes(s1, json, decodeDay);
      LoadTimesKeepsAbsent(s1, json, decodeDay);
    }
  }

  /** The time, weekday and limit setters keep each field whose key is absent, whether or not a later one raises. */
  lemma LoadTimesKeepsAbsent<D>(s: SchemaState<D>, json: Doc, decodeDay: Value -> Option<D>)
    ensures var r := LoadTimes(s, json, decodeDay);
      && ("start" !in json ==> r.state.start == s.start)
      && ("stop" !in json ==> r.state.stop == s.stop)
      && ("weekday" !in json || decodeDay(json["weekday"]).None? ==> r.state.day == s.day)
      && ("chargeLimit" !in json ==> r.state.chargeLimit == s.chargeLimit)
      && ("start" !in json && "stop" !in json ==> r.outcome.Ok?)
  {
    if "start" !in json {
      ParseFormat(s.start);
    }
    if "stop" !in json {
      ParseFormat(s.stop);
    }
  }

  /** A load that succeeds returns true exactly when the id was still unset or some field changed. */
  lemma LoadReportsChange<D>(s: SchemaState<D>, doc: Option<Doc>, decodeDay: Value -> Option<D>)
    requires doc.Some? && doc.value != map[]
    ensures var r := SchemaLoad(s, doc, decodeDay);
      r.outcome.Ok? ==>
        (r.outcome.value <==>
          || AsNumber(s.id).value < 1.0
          || r.state.start != s.start || r.state.stop != s.stop || r.state.day != s.day
          || r.state.chargeLimit != s.chargeLimit)
  {
  }

  lemma LoadTimesTwice<D>(s: SchemaState<D>, json: Doc, decodeDay: Value -> Option<D>)
    requires LoadTimes(s, json, decodeDay).outcome.Ok?
    ensures var t := LoadTimes(s, json, decodeDay).state.(hasChanged := false);
      LoadTimes(t, json, decodeDay) == Loaded(t, Ok(false))
  {
    var start := TimeFromValue(Utils.ReadValue(json, "start", Str(Format(s.start))), "start").value;
    var s1 := WithStart(s, start);
    var stop := TimeFromValue(Utils.ReadValue(json, "stop", Str(Format(s1.stop))), "stop").value;
    var t := LoadTimes(s, json, decodeDay).state.(hasChanged := false);
    assert t.start == start && t.stop == stop;
    TimeReadTwice(json, "start", s.start, start);
    TimeReadTwice(json, "stop", s1.stop, stop);
  }

  /** A time read with a stored default reads the same when the default is what the first read gave. */
  lemma TimeReadTwice(json: Doc, key: string, stored: Time, read: Time)
    requires TimeFromValue(Utils.ReadValue(json, key, Str(Format(stored))), key) == Ok(read)
    ensures TimeFromValue(Utils.ReadValue(json, key, Str(Format(read))), key) == Ok(read)
  {
    if key !in json {
      ParseFormat(stored);
      ParseFormat(read);
    }
  }

  /** Loading the same non-empty document twice, once the id is set: the second call returns false and changes nothing. */
  lemma LoadTwiceReportsNoChange<D>(s: SchemaState<D>, json: Doc, decodeDay: Value -> Option<D>)
    requires json != map[] && SchemaLoad(s, Some(json), decodeDay).outcome.Ok?
    requires var t := SchemaLoad(s, Some(json), decodeDay).state; AsNumber(t.id).Some? && AsNumber(t.id).value >= 1.0
    ensures var t := SchemaLoad(s, Some(json), decodeDay).state;
      SchemaLoad(t, Some(json), decodeDay) == Loaded(t.(hasChanged := false), Ok(false))
  {
    var n := AsNumber(s.id).value;
    var s0 := s.(hasChanged := false);
    var s1 := if n < 1.0 then s0.(id := Utils.ReadValue(json, "schemaId", Int(-1)), hasChanged := true) else s0;
    LoadTimesTwice(s1, json, decodeDay);
  }

  /** A schedule entry: its fields, the setters, `load` and the `id` property. */
  class GaroSchema<D(==)> {
    var id: Value
    var start: Time
    var stop: Time
    var day: D
    var chargeLimit: Value
    var hasChanged: bool
    /** The weekday enum's by-value lookup, as `read_enum` uses it. */
    const decodeDay: Value -> Option<D>

    function State(): SchemaState<D>
      reads this
    {
      SchemaState(id, start, stop, day, chargeLimit, hasChanged)
    }

    /** `GaroSchema()`: the defaults, then `load(None)`, which changes nothing. */
    constructor (decodeDay: Value -> Option<D>, monday: D)
      ensures this.decodeDay == decodeDay
      ensures State() == InitialSchema(monday)
    {
      id := Int(-1);
      start := Clock(0, 0, 0);
      stop := Clock(0, 0, 0);
      day := monday;
      chargeLimit := Int(0);
      hasChanged := false;
      this.decodeDay := decodeDay;
    }

    /** The `id` property. */
    function Id(): Result<Value, Error>
      reads this
    {
      IdOf(State())
    }

    method SetStart(value: Time)
      modifies this
      ensures State() == WithStart(old(State()), value)
    {
      if start == value { return; }
      start := value;
      hasChanged := true;
    }

    method SetStop(value: Time)
      modifies this
      ensures State() == WithStop(old(State()), value)
    {
      if stop == value { return; }
      stop := value;
      hasChanged := true;
    }

    method SetDayOfTheWeek(value: D)
      modifies this
      ensures State() == WithDayOfTheWeek(old(State()), value)
    {
      if day == value { return; }
      day := value;
      hasChanged := true;
    }

    method SetChargeLimit(value: Value)
      modifies this
      ensures State() == WithChargeLimit(old(State()), value)
    {
      if Equal(chargeLimit, value) { return; }
      chargeLimit := value;
      hasChanged := true;
    }

    /** `load(json)`, raising (returning the error) where `int` comparison or `strptime` would. */
    method Load(doc: Option<Doc>) returns (r: Result<bool, Error>)
      modifies this
      ensures State() == SchemaLoad(old(State()), doc, decodeDay).state
      ensures r == SchemaLoad(old(State()), doc, decodeDay).outcome
    {
      if doc.None? || doc.value == map[] {
        return Ok(false);
      }
      var json := doc.value;
      hasChanged := false;
      if AsNumber(id).None? {
        return Err(TypeError("schemaId"));
      }
      if AsNumber(id).value < 1.0 {
        id := Utils.ReadValue(json, "schemaId", Int(-1));
        hasChanged := true;
      }
      var startTime := TimeFromValue(Utils.ReadValue(json, "start", Str(Format(start))), "start");
      if startTime.Err? {
        return Err(startTime.error);
      }
      SetStart(startTime.value);
      var stopTime := TimeFromValue(Utils.ReadValue(json, "stop", Str(Format(stop))), "stop");
      if stopTime.Err? {
        return Err(stopTime.error);
      }
      SetStop(stopTime.value);
      SetDayOfTheWeek(Utils.ReadEnum(json, "weekday", decodeDay, day));
      SetChargeLimit(Utils.ReadValue(json, "chargeLimit", chargeLimit));
      return Ok(hasChanged);
    }
  }
}
