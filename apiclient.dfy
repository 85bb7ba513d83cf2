/**
 * The HTTP client's endpoint choice: custom_components/garo_wallbox/garo/apiclient.py.
 * Requests are not performed: the wallbox's answer is a status-code function
 * of the requested URL, and the clock reading for each URL is a parameter.
 */
module Api {
  import opened Wrappers
  import Decimal

  /** The cache-busting query: empty, or `?_=` and the time in milliseconds. */
  function Tick(addTick: bool, nowMillis: int): string {
    if addTick then "?_=" + Decimal.IntToString(nowMillis) else ""
  }

  /** The endpoint root of a firmware generation: port 8080 and a servlet path, or the pre-1.3.1 port 2222. */
  function Root(host: string, legacy: bool): string {
    if legacy then "http://" + host + ":2222/rest/chargebox/" else "http://" + host + ":8080/servlet/rest/chargebox/"
  }

  /** `_get_url(action, add_tick)` with the clock reading `nowMillis`. */
  function Url(host: string, legacy: bool, action: string, addTick: bool, nowMillis: int): string {
    Root(host, legacy) + action + Tick(addTick, nowMillis)
  }

  /** What a status poll did: the mode it leaves, the URLs it requested, and whether it got a 200. */
  datatype Poll = Poll(legacy: bool, requests: seq<string>, connected: bool)

  /**
   * `async_get_status`: request the status; a non-200 answer in modern mode
   * switches to legacy mode and requests again; a non-200 answer in legacy
   * mode raises ConnectionError (`connected` is false).
   */
  function PollStatus(host: string, legacy: bool, status: string -> int, firstMillis: int, secondMillis: int): Poll {
    var first := Url(host, legacy, "status", true, firstMillis);
    if status(first) != 200 && !legacy then
      var second := Url(host, true, "status", true, secondMillis);
      Poll(true, [first, second], status(second) == 200)
    else Poll(legacy, [first], status(first) == 200)
  }

  // ---------------------------------------------------------------------------
  // Properties

  /** Without a tick the URL ends with the action; with one, the tick reads back as the clock value. */
  lemma TickRoundTrip(addTick: bool, nowMillis: int)
    ensures !addTick ==> Tick(addTick, nowMillis) == ""
    ensures addTick ==> |Tick(addTick, nowMillis)| > 3 && Tick(addTick, nowMillis)[..3] == "?_="
    ensures addTick ==> Decimal.ParseInt(Tick(addTick, nowMillis)[3..]) == Some(nowMillis)
  {
    if addTick {
      Decimal.IntRoundTrip(nowMillis);
      Decimal.NatToStringDigits(if nowMillis < 0 then -nowMillis else nowMillis);
      assert Tick(addTick, nowMillis)[3..] == Decimal.IntToString(nowMillis);
    }
  }

  /** The modern and the legacy URL of the same request differ: they use different ports. */
  lemma ModesUseDifferentEndpoints(host: string, action: string, addTick: bool, nowMillis: int)
    ensures Url(host, false, action, addTick, nowMillis) != Url(host, true, action, addTick, nowMillis)
  {
    var k := |"http://" + host + ":"|;
    assert Url(host, false, action, addTick, nowMillis)[k] == '8';
    assert Url(host, true, action, addTick, nowMillis)[k] == '2';
  }

  /** The URL names its action: the root comes first, and two actions give the same URL only when they are the same. */
  lemma UrlNamesAction(host: string, legacy: bool, a: string, b: string, addTick: bool, nowMillis: int)
    ensures Url(host, legacy, a, addTick, nowMillis)[..|Root(host, legacy)|] == Root(host, legacy)
    ensures Url(host, legacy, a, addTick, nowMillis) == Url(host, legacy, b, addTick, nowMillis) ==> a == b
  {
    var root, tick := Root(host, legacy), Tick(addTick, nowMillis);
    var u, v := Url(host, legacy, a, addTick, nowMillis), Url(host, legacy, b, addTick, nowMillis);
    assert u == root + (a + tick);
    if u == v {
      assert |a| == |b|;
      assert a == u[|root|..|root| + |a|];
      assert b == v[|root|..|root| + |b|];
    }
  }

  /** A poll issues one request, or two when the first is refused in modern mode. */
  lemma PollRequestCount(host: string, legacy: bool, status: string -> int, t1: int, t2: int)
    ensures var p := PollStatus(host, legacy, status, t1, t2);
      && 1 <= |p.requests| <= 2
      && p.requests[0] == Url(host, legacy, "status", true, t1)
      && (|p.requests| == 2 <==> !legacy && status(p.requests[0]) != 200)
      && (|p.requests| == 2 ==> p.requests[1] == Url(host, true, "status", true, t2))
  {
  }

  /** The mode only moves from modern to legacy, and only after a refused first request; a 200 changes nothing. */
  lemma PollModeOnlyFallsBack(host: string, legacy: bool, status: string -> int, t1: int, t2: int)
    ensures var p := PollStatus(host, legacy, status, t1, t2);
      && (legacy ==> p.legacy)
      && (p.legacy <==> legacy || status(Url(host, legacy, "status", true, t1)) != 200)
      && (status(Url(host, legacy, "status", true, t1)) == 200 ==> p == Poll(legacy, p.requests, true) && |p.requests| == 1)
  {
  }

  /** The poll fails exactly when its last request is refused, and then the client is in legacy mode. */
  lemma PollFailsOnLastRefusal(host: string, legacy: bool, status: string -> int, t1: int, t2: int)
    ensures var p := PollStatus(host, legacy, status, t1, t2);
      && (p.connected <==> status(p.requests[|p.requests| - 1]) == 200)
      && (!p.connected ==> p.legacy)
  {
  }

  /** The wallbox client: the host and the endpoint generation it has settled on. */
  class ApiClient {
    const host: string
    var preV13: bool

    /** `ApiClient(client, host)`: modern endpoints first. */
    constructor (host: string)
      ensures this.host == host && !preV13
    {
      this.host := host;
      preV13 := false;
    }

    /** `_get_url(action, add_tick)` in the current mode. */
    function GetUrl(action: string, addTick: bool, nowMillis: int): string
      reads this
    {
      Url(host, preV13, action, addTick, nowMillis)
    }

    /**
     * `async_get_status()`: the URLs requested, in order; `connected` is false
     * where the source raises ConnectionError.
     */
    method GetStatus(status: string -> int, firstMillis: int, secondMillis: int)
      returns (requests: seq<string>, connected: bool)
      modifies this
      ensures var p := PollStatus(host, old(preV13), status, firstMillis, secondMillis);
        preV13 == p.legacy && requests == p.requests && connected == p.connected
    {
      var url := GetUrl("status", true, firstMillis);
      requests := [url];
      var code := status(url);
      if code != 200 && !preV13 {
        preV13 := true;
        url := GetUrl("status", true, secondMillis);
        requests := requests + [url];
        code := status(url);
      }
      connected := !(code != 200 && preV13);
    }
  }
}
