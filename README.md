# garo_wallbox value model

A Dafny model of the value layer of the Home Assistant integration for Garo
wallboxes: the JSON documents the wallbox answers with, the objects that keep
the last reading (`GaroStatus` with its two nested `GaroCharger`s, `GaroMeter`,
`GaroSchema`, the one-shot `GaroConfig`), the enumerations and the product
catalogue they decode into, the client's status poll with its fall-back to the
pre-1.3 firmware endpoints, and the coordinator's change counter.

Layout, one module per file:

- `wrappers.dfy` (`Wrappers`): Option and Result.
- `decimal.dfy` (`Decimal`): decimal text of integers, printing and parsing, with round trips.
- `json.dfy` (`Json`): decoded JSON values, Python `==` between them, truth value, `int()` and `str()`, and the Python errors.
- `loading.dfy` (`Loading`): the "store only when different, and raise the flag" rule every setter follows, and the result of a `load` that may raise halfway.
- `utils.dfy` (`Utils`): `read_value` and `read_enum`.
- `const.dfy` (`Const`): `Connector`, `Mode`, `PowerMode`, `CableLockMode`, `GaroProductInfo` and `PRODUCT_MAP`.
- `garocharger.dfy`, `garostatus.dfy`, `garometer.dfy`, `garoschema.dfy` (`Charger`, `Status`, `Meter`, `Schema`): each object is a class with the source's fields. `State()` takes a snapshot as a datatype. A pure load specification (`ChargerLoad`, `StatusLoad`, `MeterLoad`, `SchemaLoad`) works on that snapshot. The class's methods are proved to leave exactly the state the specification describes, and the properties are lemmas about the specification.
- `timeofday.dfy` (`TimeOfDay`): the `%H:%M:%S` text of a time of day, formatted and parsed.
- `garoconfig.dfy` (`Config`): the configuration record built from one document.
- `apiclient.dfy` (`Api`): URL building and the status poll. Its HTTP answers come from a parameter.
- `coordinator.dfy` (`Coordinator`): the device id and the update counter.

Behaviour worth knowing, modelled as the code has it:

- A `load` is not transactional. When a setter raises halfway (for example when a non-number is compared with `>`), the fields set before it keep their new values. Each load specification returns that partial state together with the error.
- A setter keeps the stored value when the new one is `==` to it, so `1` replaces neither `1.0` nor `True`. It raises the `has_changed` flag only when it stores.
- The status reads `currentChargingCurrent` with the stored current as default, and the stored current is already divided by 1000. So a document without that key divides the current by 1000 again. It stays put only when it is 0 (`Status.CurrentRescaledWhenAbsent`).
- The `latest_reading` guard ignores a reading more than 500000 *above* a positive stored one. Any reading below it, however far, is accepted. The code is followed here (`Status.LatestReadingAcceptsDecrease`).
- The serial number is assigned directly and never raises the flag.
- A schedule's `load` of an empty document returns before clearing the flag. Its id is taken from the document only while it is below 1.

## Model

| member | source | states |
|---|---|---|
| Utils.ReadValue | custom_components/garo_wallbox/garo/utils.py:14-15 | A present key gives `json[key]`, an absent key the default; the object is a value and is not changed. |
| Utils.ReadEnum | custom_components/garo_wallbox/garo/utils.py:5-12 | An absent key gives the default; a value some member carries gives that member; any other value gives the default instead of failing. |
| Json.ToInt | custom_components/garo_wallbox/garo/garoconfig.py:7 | `int()` succeeds exactly on numbers and integer text, returns an integer unchanged, and raises ValueError for bad text and TypeError otherwise. |
| Const.ConnectorFromJson | custom_components/garo_wallbox/garo/const.py:4-28 | A decoded connector is the one whose wire value is the text received. |
| Const.FindConnector | custom_components/garo_wallbox/garo/const.py:4-28 | The enum's lookup by value: a member found is one of those searched and carries the value; nothing is found only when no searched member carries it. |
| Const.ConnectorValuesDistinct | custom_components/garo_wallbox/garo/const.py:4-28 | No two connector states share a wire value, so decoding by value is unambiguous. |
| Const.ConnectorRoundTrip | custom_components/garo_wallbox/garo/const.py:4-28 | Decoding a connector's own wire value gives that connector back. |
| Const.AllConnectorsComplete | custom_components/garo_wallbox/garo/const.py:4-28 | The list of connector states has 24 entries and holds every state. |
| Const.ConnectorFromJsonRejects | custom_components/garo_wallbox/garo/const.py:4-28 | `Connector(v)` finds nothing exactly when no connector state carries `v`. |
| Const.ModeFromJson | custom_components/garo_wallbox/garo/const.py:30-33 | `ALWAYS_ON` decodes to On, `ALWAYS_OFF` to Off and `SCHEMA` to Schema, each in both directions; nothing else decodes. |
| Const.PowerModeFromJson | custom_components/garo_wallbox/garo/const.py:35-39 | Exactly `ON`, `OFF`, `UNKNOWN` and `UNAVAILABLE` decode, each to the member carrying it. |
| Const.CableLockModeFromJson | custom_components/garo_wallbox/garo/const.py:41-44 | Exactly the numbers 0, 1 and 2 decode, each to the member whose code it is. |
| Const.CableLockModeCodes | custom_components/garo_wallbox/garo/const.py:41-44 | UNLOCKED is 0, LOCKED is 2 and LOCKED_WITH_POWER_LOSS_UNLOCK is 1, and every code decodes back to its member. |
| Const.NamedProductHasNoFeatures | custom_components/garo_wallbox/garo/const.py:46-51 | A product built from a name alone has no meter, is not three-phase and has no outlet. |
| Const.ProductMapKeys | custom_components/garo_wallbox/garo/const.py:54-179 | The catalogue's keys are exactly 1 to 122, 220 and 221. |
| Loading.Assign | custom_components/garo_wallbox/garo/garocharger.py:50-55 | What a setter leaves in its field is always `==` to the value it was given. |
| Charger.InitialChargerDefaults | custom_components/garo_wallbox/garo/garocharger.py:9-22 | A fresh charger is invalid and unchanged, with reference `""`, serial 0, offline, phase 0 and product 0. |
| Charger.LoadNoneChangesNothing | custom_components/garo_wallbox/garo/garocharger.py:25-26 | `load(None)` returns false and leaves the charger as it was. |
| Charger.LoadMergesObject | custom_components/garo_wallbox/garo/garocharger.py:27-40 | Loading any object, even an empty one, makes the charger valid; a present key's value is stored (up to `==`), an absent key's field is kept, and the flag is reset. |
| Charger.MergeReadingsFields | custom_components/garo_wallbox/garo/garocharger.py:29-36 | The eight setters store each present key's value (up to `==`) and keep every other field. |
| Charger.MergeReadingsFlag | custom_components/garo_wallbox/garo/garocharger.py:29-36 | The setters raise the flag exactly when some reading changes, or keep it raised. |
| Charger.LoadReportsChange | custom_components/garo_wallbox/garo/garocharger.py:24-40 | A `load` that does not raise returns true exactly when the document is an object and the flag was raised or some reading changed. |
| Charger.LoadTwiceReportsNoChange | custom_components/garo_wallbox/garo/garocharger.py:38-40 | After a successful load, loading the same document again returns false and changes nothing. |
| Charger.GaroCharger.constructor | custom_components/garo_wallbox/garo/garocharger.py:9-22 | A new charger holds the initial snapshot. |
| Charger.GaroCharger.SetReference | custom_components/garo_wallbox/garo/garocharger.py:50-55 | Stores the value and raises the flag only when it differs from the stored one (`==`); nothing else changes. |
| Charger.GaroCharger.SetSerialNumber | custom_components/garo_wallbox/garo/garocharger.py:60-65 | Stores the value and raises the flag only when it differs from the stored one (`==`); nothing else changes. |
| Charger.GaroCharger.SetOnline | custom_components/garo_wallbox/garo/garocharger.py:70-75 | Stores the value and raises the flag only when it differs from the stored one (`==`); nothing else changes. |
| Charger.GaroCharger.SetLoadBalanced | custom_components/garo_wallbox/garo/garocharger.py:80-85 | Stores the value and raises the flag only when it differs from the stored one (`==`); nothing else changes. |
| Charger.GaroCharger.SetPhase | custom_components/garo_wallbox/garo/garocharger.py:90-95 | Stores the value and raises the flag only when it differs from the stored one (`==`); nothing else changes. |
| Charger.GaroCharger.SetProductId | custom_components/garo_wallbox/garo/garocharger.py:100-105 | Stores the value and raises the flag only when it differs from the stored one (`==`); nothing else changes. |
| Charger.GaroCharger.SetChargeStatus | custom_components/garo_wallbox/garo/garocharger.py:110-115 | Stores the value and raises the flag only when it differs from the stored one (`==`); nothing else changes. |
| Charger.GaroCharger.SetPilotLevel | custom_components/garo_wallbox/garo/garocharger.py:120-125 | Stores the value and raises the flag only when it differs from the stored one (`==`); nothing else changes. |
| Charger.GaroCharger.Load | custom_components/garo_wallbox/garo/garocharger.py:24-40 | Leaves the charger in the state, and returns the outcome, of the load specification the lemmas above are about. |
| Status.LoadOfNothing | custom_components/garo_wallbox/garo/garostatus.py:28-31 | None or an empty object: the flag is cleared, false is returned and nothing else changes. |
| Status.LoadRequiresSerialNumber | custom_components/garo_wallbox/garo/garostatus.py:33 | A non-empty document without `serialNumber` raises KeyError before any field is assigned. |
| Status.MergeStagesReportChange | custom_components/garo_wallbox/garo/garostatus.py:34-48 | The plain setters raise the flag exactly when one of their readings changes, and touch no other field. |
| Status.LoadReportsChange | custom_components/garo_wallbox/garo/garostatus.py:28-55 | The flag `load` leaves and returns is raised exactly when a reading of the status or of a present nested charger changed; the serial number does not count. |
| Status.LoadKeepsAbsentFields | custom_components/garo_wallbox/garo/garostatus.py:33-53 | Whatever the outcome, a field whose key is absent keeps its value (the current only at 0, the power only within the ceiling), and the serial number is the document's. |
| Status.LoadStoresDocument | custom_components/garo_wallbox/garo/garostatus.py:33-53 | After a successful load every present key's value is stored: settings decoded, current scaled, power clamped, latest reading guarded, nested chargers settled. |
| Status.LoadOfReflectedReportsNoChange | custom_components/garo_wallbox/garo/garostatus.py:33-55 | A state already holding the document returns false and only takes the document's serial number: a serial change alone is never reported. |
| Status.LoadTwiceReportsNoChange | custom_components/garo_wallbox/garo/garostatus.py:28-55 | Loading the same document twice returns false the second time and changes nothing, provided the document sends the current or the current is 0. |
| Status.LoadKeepsInvariant | custom_components/garo_wallbox/garo/garostatus.py:143-160 | No load makes the stored current negative or the stored power a non-number or larger than 32000. |
| Status.LoadNestedEffect | custom_components/garo_wallbox/garo/garostatus.py:50-53 | Present nested documents are loaded into the existing chargers in place and a true from them raises the flag; absent ones leave the chargers alone. |
| Status.PowerClamp | custom_components/garo_wallbox/garo/garostatus.py:154-160 | A power above 32000 is stored as 0 and any other number as sent; the flag is raised only on a difference; a non-number raises TypeError. |
| Status.CurrentScaling | custom_components/garo_wallbox/garo/garostatus.py:143-148 | The current is stored as max(0, raw/1000): never negative, times 1000 it gives a non-negative raw value back; compared after scaling; a non-number raises TypeError. |
| Status.CurrentRescaledWhenAbsent | custom_components/garo_wallbox/garo/garostatus.py:143-148 | With its key absent (the default at line 40 is the stored value) the current is divided by 1000 again, so it stays unchanged only at 0. |
| Status.LatestReadingGuard | custom_components/garo_wallbox/garo/garostatus.py:186-192 | An equal reading is ignored; with a positive stored reading a value more than 500000 above it is ignored and not flagged; other numbers are stored and flagged; comparing with a non-number raises. |
| Status.LatestReadingAcceptsDecrease | custom_components/garo_wallbox/garo/garostatus.py:186-192 | A reading below the stored one is always accepted and flagged: the guard rejects only large increases. |
| Status.GaroStatus.constructor | custom_components/garo_wallbox/garo/garostatus.py:6-26 | A new status holds the initial snapshot, with two fresh, distinct nested chargers. |
| Status.GaroStatus.SetSerialNumber | custom_components/garo_wallbox/garo/garostatus.py:73-77 | Stores the value and raises the flag only when it differs from the stored one; nothing else changes. |
| Status.GaroStatus.SetConnector | custom_components/garo_wallbox/garo/garostatus.py:83-87 | Stores the value and raises the flag only when it differs from the stored one; nothing else changes. |
| Status.GaroStatus.SetMode | custom_components/garo_wallbox/garo/garostatus.py:93-97 | Stores the value and raises the flag only when it differs from the stored one; nothing else changes. |
| Status.GaroStatus.SetCurrentLimit | custom_components/garo_wallbox/garo/garostatus.py:103-107 | Stores the value and raises the flag only when it differs from the stored one; nothing else changes. |
| Status.GaroStatus.SetFactoryCurrentLimit | custom_components/garo_wallbox/garo/garostatus.py:113-117 | Stores the value and raises the flag only when it differs from the stored one; nothing else changes. |
| Status.GaroStatus.SetSwitchCurrentLimit | custom_components/garo_wallbox/garo/garostatus.py:123-127 | Stores the value and raises the flag only when it differs from the stored one; nothing else changes. |
| Status.GaroStatus.SetPowerMode | custom_components/garo_wallbox/garo/garostatus.py:133-137 | Stores the value and raises the flag only when it differs from the stored one; nothing else changes. |
| Status.GaroStatus.SetSessionEnergy | custom_components/garo_wallbox/garo/garostatus.py:166-170 | Stores the value and raises the flag only when it differs from the stored one; nothing else changes. |
| Status.GaroStatus.SetSessionMillis | custom_components/garo_wallbox/garo/garostatus.py:176-180 | Stores the value and raises the flag only when it differs from the stored one; nothing else changes. |
| Status.GaroStatus.SetChargeStatus | custom_components/garo_wallbox/garo/garostatus.py:198-202 | Stores the value and raises the flag only when it differs from the stored one; nothing else changes. |
| Status.GaroStatus.SetTemperature | custom_components/garo_wallbox/garo/garostatus.py:208-212 | Stores the value and raises the flag only when it differs from the stored one; nothing else changes. |
| Status.GaroStatus.SetPhases | custom_components/garo_wallbox/garo/garostatus.py:218-222 | Stores the value and raises the flag only when it differs from the stored one; nothing else changes. |
| Status.GaroStatus.SetPilotLevel | custom_components/garo_wallbox/garo/garostatus.py:228-232 | Stores the value and raises the flag only when it differs from the stored one; nothing else changes. |
| Status.GaroStatus.SetChargingCurrent | custom_components/garo_wallbox/garo/garostatus.py:143-148 | Leaves the state `CurrentScaling` describes, or raises and changes nothing. |
| Status.GaroStatus.SetChargingPower | custom_components/garo_wallbox/garo/garostatus.py:154-160 | Leaves the state `PowerClamp` describes, or raises and changes nothing. |
| Status.GaroStatus.SetLatestReading | custom_components/garo_wallbox/garo/garostatus.py:186-192 | Leaves the state `LatestReadingGuard` describes, or raises and changes nothing. |
| Status.GaroStatus.ApplySettings | custom_components/garo_wallbox/garo/garostatus.py:34-39 | Runs the settings setters in order with the stored values as defaults. |
| Status.GaroStatus.ApplySession | custom_components/garo_wallbox/garo/garostatus.py:42-43 | Runs the session setters in order with the stored values as defaults. |
| Status.GaroStatus.ApplyTail | custom_components/garo_wallbox/garo/garostatus.py:45-48 | Runs the setters from `chargeStatus` to `pilotLevel` in order with the stored values as defaults. |
| Status.GaroStatus.LoadChargers | custom_components/garo_wallbox/garo/garostatus.py:50-55 | Loads each present nested document into its charger in place and returns the flag, or the charger's error. |
| Status.GaroStatus.Load | custom_components/garo_wallbox/garo/garostatus.py:28-55 | Leaves the status and its chargers in the state, and returns the outcome, of the load specification the lemmas above are about. |
| Meter.Divide | custom_components/garo_wallbox/garo/garometer.py:71 | `raw / divisor`: the quotient times the divisor is the raw reading; a non-number raises TypeError and a zero divisor ZeroDivisionError. |
| Meter.InitialMeterDefaults | custom_components/garo_wallbox/garo/garometer.py:4-23 | A fresh meter has the divisors it was given, serial `""`, type 0 and every reading 0.0. |
| Meter.LoadOfNothing | custom_components/garo_wallbox/garo/garometer.py:26-29 | None or an empty object: the flag is cleared, false is returned and nothing else changes. |
| Meter.MergeReadingsFields | custom_components/garo_wallbox/garo/garometer.py:32-41 | The ten setters store each present key's value (up to `==`), keep every other reading and never touch the divisors. |
| Meter.MergeReadingsFlag | custom_components/garo_wallbox/garo/garometer.py:32-41 | The setters raise the flag exactly when some reading changes, or keep it raised. |
| Meter.LoadReportsChange | custom_components/garo_wallbox/garo/garometer.py:26-43 | `load` returns true exactly when some raw reading changed; present keys are stored, absent ones kept, the divisors never change. |
| Meter.LoadTwiceReportsNoChange | custom_components/garo_wallbox/garo/garometer.py:26-43 | Loading the same document twice returns false the second time and changes nothing. |
| Meter.GaroMeter.constructor | custom_components/garo_wallbox/garo/garometer.py:4-24 | A new meter is the initial snapshot with the given divisors (1 by default), loaded with the given document. |
| Meter.GaroMeter.SetSerialNumber | custom_components/garo_wallbox/garo/garometer.py:53-57 | Stores the raw value and raises the flag only when it differs from the stored one; nothing else changes. |
| Meter.GaroMeter.SetType | custom_components/garo_wallbox/garo/garometer.py:63-67 | Stores the raw value and raises the flag only when it differs from the stored one; nothing else changes. |
| Meter.GaroMeter.SetL1Current | custom_components/garo_wallbox/garo/garometer.py:73-77 | Stores the raw value and raises the flag only when it differs from the stored one; nothing else changes. |
| Meter.GaroMeter.SetL2Current | custom_components/garo_wallbox/garo/garometer.py:83-87 | Stores the raw value and raises the flag only when it differs from the stored one; nothing else changes. |
| Meter.GaroMeter.SetL3Current | custom_components/garo_wallbox/garo/garometer.py:93-97 | Stores the raw value and raises the flag only when it differs from the stored one; nothing else changes. |
| Meter.GaroMeter.SetL1Power | custom_components/garo_wallbox/garo/garometer.py:103-107 | Stores the raw value and raises the flag only when it differs from the stored one; nothing else changes. |
| Meter.GaroMeter.SetL2Power | custom_components/garo_wallbox/garo/garometer.py:113-117 | Stores the raw value and raises the flag only when it differs from the stored one; nothing else changes. |
| Meter.GaroMeter.SetL3Power | custom_components/garo_wallbox/garo/garometer.py:123-127 | Stores the raw value and raises the flag only when it differs from the stored one; nothing else changes. |
| Meter.GaroMeter.SetApparentPower | custom_components/garo_wallbox/garo/garometer.py:133-137 | Stores the raw value and raises the flag only when it differs from the stored one; nothing else changes. |
| Meter.GaroMeter.SetAccumulatedEnergy | custom_components/garo_wallbox/garo/garometer.py:143-147 | Stores the raw value and raises the flag only when it differs from the stored one; nothing else changes. |
| Meter.GaroMeter.Load | custom_components/garo_wallbox/garo/garometer.py:26-43 | Leaves the meter in the state of the load specification and returns its flag. |
| Meter.GaroMeter.PhaseOneCurrent | custom_components/garo_wallbox/garo/garometer.py:70-71 | The raw reading divided by the current divisor: times the divisor it gives the raw reading back; otherwise the Python error. |
| Meter.GaroMeter.PhaseTwoCurrent | custom_components/garo_wallbox/garo/garometer.py:80-81 | The raw reading divided by the current divisor: times the divisor it gives the raw reading back; otherwise the Python error. |
| Meter.GaroMeter.PhaseThreeCurrent | custom_components/garo_wallbox/garo/garometer.py:90-91 | The raw reading divided by the current divisor: times the divisor it gives the raw reading back; otherwise the Python error. |
| Meter.GaroMeter.PhaseOnePower | custom_components/garo_wallbox/garo/garometer.py:100-101 | The raw reading divided by the power divisor: times the divisor it gives the raw reading back; otherwise the Python error. |
| Meter.GaroMeter.PhaseTwoPower | custom_components/garo_wallbox/garo/garometer.py:110-111 | The raw reading divided by the power divisor: times the divisor it gives the raw reading back; otherwise the Python error. |
| Meter.GaroMeter.PhaseThreePower | custom_components/garo_wallbox/garo/garometer.py:120-121 | The raw reading divided by the power divisor: times the divisor it gives the raw reading back; otherwise the Python error. |
| Meter.GaroMeter.ApparentPowerReading | custom_components/garo_wallbox/garo/garometer.py:130-131 | The raw reading divided by the power divisor: times the divisor it gives the raw reading back; otherwise the Python error. |
| Meter.GaroMeter.EnergyReading | custom_components/garo_wallbox/garo/garometer.py:140-141 | The raw energy divided by 1000 whatever the divisors; it fails only on a non-number. |
| TimeOfDay.Format | custom_components/garo_wallbox/garo/garoschema.py:26-27 | `strftime("%H:%M:%S")` gives eight characters with colons at positions 2 and 5. |
| TimeOfDay.Parse | custom_components/garo_wallbox/garo/garoschema.py:26-27 | `strptime(..., "%H:%M:%S")` accepts only three colon-separated fields and only times within the day. |
| TimeOfDay.ParseFormat | custom_components/garo_wallbox/garo/garoschema.py:26-27 | Formatting a time and parsing it back gives the same time. |
| TimeOfDay.FormatInjective | custom_components/garo_wallbox/garo/garoschema.py:26-27 | Different times format differently. |
| Schema.TimeFromValue | custom_components/garo_wallbox/garo/garoschema.py:26-27 | A text value that parses gives its time; malformed text raises ValueError and a non-text value TypeError. |
| Schema.IdOf | custom_components/garo_wallbox/garo/garoschema.py:33-37 | `id` returns the stored id exactly when it is a number of at least 1; a smaller one raises ValueError. |
| Schema.InitialSchemaDefaults | custom_components/garo_wallbox/garo/garoschema.py:8-17 | A fresh schedule has id -1 (so `id` raises), start = stop = 00:00:00, MONDAY and limit 0. |
| Schema.LoadOfNothing | custom_components/garo_wallbox/garo/garoschema.py:19-21 | None or an empty object returns false and changes nothing, not even the flag. |
| Schema.IdFrozenOnceSet | custom_components/garo_wallbox/garo/garoschema.py:23-24 | Once the id is at least 1 no load changes it. |
| Schema.IdAssignedWhileUnset | custom_components/garo_wallbox/garo/garoschema.py:23-25 | While the id is below 1 every load of a non-empty document takes `schemaId` (or -1) and reports a change. |
| Schema.LoadKeepsAbsentFields | custom_components/garo_wallbox/garo/garoschema.py:26-29 | Whatever the outcome, absent `start`/`stop` keep the stored times (formatted and parsed back), an absent or unknown `weekday` keeps the day and an absent `chargeLimit` keeps the limit; with both times absent and a numeric id the load succeeds. |
| Schema.LoadReportsChange | custom_components/garo_wallbox/garo/garoschema.py:19-30 | A successful load returns true exactly when the id was unset or the start, stop, day or limit changed. |
| Schema.LoadTwiceReportsNoChange | custom_components/garo_wallbox/garo/garoschema.py:19-30 | Once the id is set, loading the same document twice returns false the second time and changes nothing. |
| Schema.GaroSchema.constructor | custom_components/garo_wallbox/garo/garoschema.py:8-17 | A new schedule holds the initial snapshot. |
| Schema.GaroSchema.SetStart | custom_components/garo_wallbox/garo/garoschema.py:43-47 | Stores the value and raises the flag only when it differs from the stored one; nothing else changes. |
| Schema.GaroSchema.SetStop | custom_components/garo_wallbox/garo/garoschema.py:53-57 | Stores the value and raises the flag only when it differs from the stored one; nothing else changes. |
| Schema.GaroSchema.SetDayOfTheWeek | custom_components/garo_wallbox/garo/garoschema.py:63-67 | Stores the value and raises the flag only when it differs from the stored one; nothing else changes. |
| Schema.GaroSchema.SetChargeLimit | custom_components/garo_wallbox/garo/garoschema.py:73-77 | Stores the value and raises the flag only when it differs from the stored one; nothing else changes. |
| Schema.GaroSchema.Load | custom_components/garo_wallbox/garo/garoschema.py:19-30 | Leaves the schedule in the state, and returns the outcome, of the load specification the lemmas above are about. |
| Config.LookupProduct | custom_components/garo_wallbox/garo/garoconfig.py:8 | A catalogue id gives its entry; any other id gives a product named "Unknown" with no features. |
| Config.FromJson | custom_components/garo_wallbox/garo/garoconfig.py:5-17 | Construction fails exactly when a present `productId` is not something `int()` accepts, with that error. |
| Config.EmptyConfigDefaults | custom_components/garo_wallbox/garo/garoconfig.py:6-17 | Without keys: every number 0, package version `"0"`, product 0 "Unknown", and standalone true. |
| Config.ConfigReadsEveryKey | custom_components/garo_wallbox/garo/garoconfig.py:6-16 | Every present key is stored as sent; every absent key gives its default. |
| Config.ConfigProductId | custom_components/garo_wallbox/garo/garoconfig.py:7 | The product id is `int(productId)`, or 0 when the key is absent. |
| Config.ConfigProduct | custom_components/garo_wallbox/garo/garoconfig.py:8 | A configuration's product is the catalogue entry of its id, and ids outside 1..122, 220 and 221 give "Unknown". |
| Config.ConfigStandalone | custom_components/garo_wallbox/garo/garoconfig.py:17 | `standalone` is the truth value of the stored value: absent means the text "false", which is true; a JSON false is false. |
| Config.ProductIdAsTextOrNumber | custom_components/garo_wallbox/garo/garoconfig.py:7 | An integer product id sent as a number or as its decimal text gives the same product id. |
| Api.TickRoundTrip | custom_components/garo_wallbox/garo/apiclient.py:28 | Without a tick nothing is appended; with one it is `?_=` followed by text that reads back as the clock value. |
| Api.ModesUseDifferentEndpoints | custom_components/garo_wallbox/garo/apiclient.py:29-31 | The modern and the legacy URL of the same request differ (port 8080 against 2222). |
| Api.UrlNamesAction | custom_components/garo_wallbox/garo/apiclient.py:27-31 | A URL starts with its mode's root, and different actions give different URLs. |
| Api.PollRequestCount | custom_components/garo_wallbox/garo/apiclient.py:16-21 | A poll requests the status once, or twice exactly when the first request in modern mode is refused; the retry uses the legacy URL. |
| Api.PollModeOnlyFallsBack | custom_components/garo_wallbox/garo/apiclient.py:18-19 | Legacy mode is never left; it is entered only after a refused first request; a 200 first changes nothing. |
| Api.PollFailsOnLastRefusal | custom_components/garo_wallbox/garo/apiclient.py:22-24 | The poll raises exactly when its last request is refused, and then the client is in legacy mode. |
| Api.ApiClient.constructor | custom_components/garo_wallbox/garo/apiclient.py:11-14 | A new client uses the modern endpoints. |
| Api.ApiClient.GetStatus | custom_components/garo_wallbox/garo/apiclient.py:16-24 | Requests, mode change and outcome are those of the poll specification the lemmas above are about. |
| Coordinator.DeviceId | custom_components/garo_wallbox/coordinator.py:28 | The device id is `garo_` followed by the text of the serial number. |
| Coordinator.CounterAfter | custom_components/garo_wallbox/coordinator.py:73-74 | A poll adds 1 to the counter exactly when it returned a status reporting a change, and never more. |
| Coordinator.FetchResult | custom_components/garo_wallbox/coordinator.py:70-78 | A poll that returned a status gives the new counter; a raise or a missing status gives UpdateFailed. |
| Coordinator.CounterCountsChanges | custom_components/garo_wallbox/coordinator.py:70-78 | Over any run of polls the counter never decreases and counts exactly the polls that reported a change. |
| Coordinator.GaroDeviceCoordinator.constructor | custom_components/garo_wallbox/coordinator.py:16-31 | The device id is `garo_` and the serial, there is no status yet, and the counter starts at 0. |
| Coordinator.GaroDeviceCoordinator.FetchDeviceData | custom_components/garo_wallbox/coordinator.py:70-78 | Stores the fetched status; the counter and the result are `CounterAfter` and `FetchResult` of how the poll ended; a raise changes nothing. |

## Left out

- Python `==` between nested lists and objects is modelled structurally, so `[1] == [1.0]` is false in the model and true in Python. Scalars (bool, int, float) compare numerically, as in Python.
- Floats are exact reals: no rounding, infinities or NaN. The meter divisors are reals, where Python would accept any object.
- Json.ToInt: `int()` of text is modelled for an optional sign followed by ASCII digits. Surrounding whitespace, underscores and non-ASCII digits, which Python also accepts, are not modelled.
- Json.ToText: `str()` of floats, lists and objects is not modelled.
- Coordinator.GaroDeviceCoordinator.constructor: requires a serial number whose `str()` is modelled (null, bool, int or text). Python would build an id from any value.
- TimeOfDay.Parse: accepts one- or two-digit ASCII fields, as `strptime` does for these directives. Non-ASCII digits and whitespace handling are not modelled.
- `SchemaDayOfWeek` is not part of this model. The schedule is generic in its day type and is given the day decoder and the Monday member when it is built.
- Status.StatusLoad, Meter.MeterLoad, Schema.SchemaLoad: the document is None or an object. Python's `load` takes any value. A falsy one (`[]`, `""`, `0`, `False`) returns False like an empty object. A truthy one that is not an object would go on to `json['serialNumber']` or `key in json`, which raises TypeError or runs a substring or element test. None of this is modelled.
- Charger.GaroCharger.Load: a nested document that is text or a list raises TypeError in the model. Python's `in` would run a substring or element test on it instead.
- Every constructor takes an optional document and ends by loading it. `GaroMeter`'s constructor is modelled with that argument. The constructors of `GaroCharger`, `GaroStatus` and `GaroSchema` are modelled without it, which is the same as passing None. With a document they are the bare constructor followed by `Load`.
- The nested chargers of a status are shared objects. Calling their setters from outside raises their flags between loads, and no lemma covers that case. The status lemmas assume the nested flags are clear (`Status.NestedQuiet`), which every status load leaves them.
- HTTP (the aiohttp session, timeouts, response bodies), logging and the clock are not modelled. The status code of each request and the millisecond timestamps are parameters of the poll. Parsing the response body into the status object is not part of this model.
- The coordinator passes the stored status to `async_get_status`, which takes no argument and returns nothing. As written, every fetch therefore ends in UpdateFailed. The model takes how the fetch ended (a raise, no status, or a status) as the input of `FetchDeviceData`, and covers all three.
- The Home Assistant plumbing of the coordinator (hass, config entry, update interval, `device_info`, the naming helpers and the service calls that set the charge limit or the cable lock) is not part of this model.
- Getters that only return a field are not separate members. Each is the corresponding field of `State()`.
- The configuration's `product` is computed from the product id by `GaroConfig.Product()` instead of being stored at construction. The catalogue never changes, so the value is the same.
