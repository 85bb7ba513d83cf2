/**
 * The polling coordinator: custom_components/garo_wallbox/coordinator.py.
 * The poll itself is an input: the status object the API call returned, or
 * the fact that it raised.
 */
module Coordinator {
  import opened Wrappers
  import opened Json
  import Decimal
  import Config
  import Status

  /** `f"garo_{serial}"` for the serials whose `str()` is modelled. */
  function DeviceId(serial: Value): (r: Option<string>)
    ensures r.Some? <==> ToText(serial).Some?
    ensures r.Some? ==> |r.value| >= 5 && r.value[..5] == "garo_" && r.value[5..] == ToText(serial).value
  {
    match ToText(serial)
    case Some(text) => Some("garo_" + text)
    case None => None
  }

  /** How a poll ended: the call raised, it returned None, or it returned a status with its change flag. */
  datatype PollOutcome = Raised | NoStatus | Polled(hasChanged: bool)

  /** The revision counter after one poll: one more exactly when a status came back reporting a change. */
  function CounterAfter(updateId: nat, outcome: PollOutcome): (r: nat)
    ensures updateId <= r <= updateId + 1
    ensures r == updateId + 1 <==> outcome == Polled(true)
  {
    if outcome == Polled(true) then updateId + 1 else updateId
  }

  /** What `_fetch_device_data` returns: the counter after a status came back, UpdateFailed otherwise. */
  function FetchResult(updateId: nat, outcome: PollOutcome): (r: Result<nat, string>)
    ensures r.Ok? <==> outcome.Polled?
    ensures r.Ok? ==> r.value == CounterAfter(updateId, outcome)
  {
    if outcome.Polled? then Ok(CounterAfter(updateId, outcome)) else Err("UpdateFailed")
  }

  /** The number of polls in `outcomes` that returned a status reporting a change. */
  function ChangedPolls(outcomes: seq<PollOutcome>): nat {
    if outcomes == [] then 0
    else ChangedPolls(outcomes[..|outcomes| - 1]) + (if outcomes[|outcomes| - 1] == Polled(true) then 1 else 0)
  }

  /** The counter after a run of polls, starting from `updateId`. */
  function CounterAfterAll(updateId: nat, outcomes: seq<PollOutcome>): nat {
    if outcomes == [] then updateId
    else CounterAfter(CounterAfterAll(updateId, outcomes[..|outcomes| - 1]), outcomes[|outcomes| - 1])
  }

  /** Over any run of polls the counter never decreases and counts exactly the polls that reported a change. */
  lemma {:induction false} CounterCountsChanges(updateId: nat, outcomes: seq<PollOutcome>)
    ensures CounterAfterAll(updateId, outcomes) == updateId + ChangedPolls(outcomes)
    ensures CounterAfterAll(updateId, outcomes) >= updateId
  {
    if outcomes != [] {
      CounterCountsChanges(updateId, outcomes[..|outcomes| - 1]);
    }
  }

  /** The Home Assistant coordinator for one wallbox. */
  class GaroDeviceCoordinator {
    const deviceId: string
    const config: Config.GaroConfig
    var status: Status.GaroStatus?
    var updateId: nat

    /** `__init__`: the device id from the configured serial, no status yet, the counter at 0. */
    constructor (config: Config.GaroConfig)
      requires DeviceId(config.serialNumber).Some?
      ensures deviceId == DeviceId(config.serialNumber).value && this.config == config
      ensures status == null && updateId == 0
    {
      this.config := config;
      deviceId := DeviceId(config.serialNumber).value;
      status := null;
      updateId := 0;
    }

    /**
     * `_fetch_device_data`: store what the API call returned (`fetched`, or
     * `Err` when it raised), bump the counter when it reports a change, and
     * return the counter. A returned None is stored, then fails on the flag read.
     */
    method FetchDeviceData(fetched: Result<Status.GaroStatus?, string>) returns (r: Result<nat, string>)
      modifies this
      ensures fetched.Ok? ==> status == fetched.value
      ensures fetched.Err? ==> status == old(status)
      ensures var outcome := if fetched.Err? then Raised
                             else if fetched.value == null then NoStatus
                             else Polled(fetched.value.hasChanged);
        updateId == CounterAfter(old(updateId), outcome) && r == FetchResult(old(updateId), outcome)
    {
      if fetched.Err? {
        return Err("UpdateFailed");
      }
      status := fetched.value;
      if status == null {
        return Err("UpdateFailed");
      }
      if status.hasChanged {
        updateId := updateId + 1;
      }
      return Ok(updateId);
    }
  }
}
