/** Checking that an appliance is ready: optionally save its configuration
    and reload it, then poll a status endpoint at fixed intervals until it
    answers or the attempts run out. Waiting between attempts is not
    modelled; the poll's replies are a function of the attempt number. */
module BigipCheck {
  import opened Http
  import opened IControl

  const ConfigPath: string := "/mgmt/tm/sys/config/"
  const DevicePath: string := "/mgmt/tm/cm/device/"
  /** The command bodies a `Check` posts; they never change. */
  const SaveCommand: JsonObject := map["command" := Str("save")]
  const ReloadCommand: JsonObject := map["command" := Str("reboot")]
  const InvalidResponse: Value := Obj(map["error" := Str("Response not valid")])

  const SaveFailed: string := "Save config failed"
  const ReloadFailed: string := "Reload failed"
  const NotReady: string := "Device not ready"

  function SaveRequest(host: string): Request
  {
    Request(Post, Url(host, ConfigPath), Data(Some(SaveCommand)))
  }

  function ReloadRequest(host: string): Request
  {
    Request(Post, Url(host, ConfigPath), Data(Some(ReloadCommand)))
  }

  function ReadyRequest(host: string): Request
  {
    Request(Get, Url(host, DevicePath), NoData)
  }

  /** `k` readiness probes in a row. */
  function Polls(host: string, k: nat): (r: seq<Request>)
    ensures |r| == k && forall i :: 0 <= i < k ==> r[i] == ReadyRequest(host)
  {
    seq(k, _ => ReadyRequest(host))
  }

  /** One more probe extends the run of probes by one. */
  lemma PollsSnoc(host: string, k: nat)
    ensures Polls(host, k) + [ReadyRequest(host)] == Polls(host, k + 1)
  {
  }

  /** The first item of the response's "items", or an error object when
      there is none (the response is not an object, has no "items", or its
      "items" cannot be indexed by 0). Indexing a string gives its first
      character. */
  function BuildFacts(response: Response): (facts: Value)
    ensures !(response.Content? && "items" in response.doc) ==> facts == InvalidResponse
    ensures response.Content? && "items" in response.doc ==>
      var items := response.doc["items"];
      && (items.Arr? && |items.elems| > 0 ==> facts == items.elems[0])
      && (items.Str? && |items.s| > 0 ==> facts == Str([items.s[0]]))
      && (items.Arr? && |items.elems| == 0 ==> facts == InvalidResponse)
      && (items.Str? && |items.s| == 0 ==> facts == InvalidResponse)
      && (!items.Arr? && !items.Str? ==> facts == InvalidResponse)
  {
    if response.Content? && "items" in response.doc then
      match response.doc["items"]
      case Arr(elems) => if |elems| > 0 then elems[0] else InvalidResponse
      case Str(s) => if |s| > 0 then Str([s[0]]) else InvalidResponse
      case _ => InvalidResponse
    else InvalidResponse
  }

  /** The number of values `range(0, stop, step)` yields: 0, step, 2*step,
      ... while below stop (above it for a negative step). */
  function RangeCount(stop: int, step: int): (n: nat)
    requires step != 0
    ensures n == 0 <==> (step > 0 && stop <= 0) || (step < 0 && stop >= 0)
    decreases if step > 0 then stop else -stop
  {
    if (step > 0 && stop <= 0) || (step < 0 && stop >= 0) then 0
    else 1 + RangeCount(stop - step, step)
  }

  /** For a positive step the attempts are ceil(stop / step), none when
      stop is not positive. */
  lemma {:induction false} RangeCountIsCeiling(stop: int, step: int)
    requires step > 0
    ensures RangeCount(stop, step) == if stop <= 0 then 0 else (stop + step - 1) / step
    decreases stop
  {
    if stop > 0 {
      RangeCountIsCeiling(stop - step, step);
      DivAddDivisor(stop - 1, step);
    }
  }

  lemma DivAddDivisor(x: int, d: int)
    requires d > 0
    ensures (x + d) / d == x / d + 1
  {
    var q, r := x / d, x % d;
    var q', r' := (x + d) / d, (x + d) % d;
    assert x == q * d + r && 0 <= r < d;
    assert x + d == q' * d + r' && 0 <= r' < d;
    var k := q' - q - 1;
    assert k * d == r - r' by {
      assert q' * d == (q + 1 + k) * d == q * d + d + k * d;
    }
  }

  /** With the default timeout and interval, four attempts are made. */
  lemma DefaultAttempts()
    ensures RangeCount(40, 10) == 4
  {
  }

  predicate ProbeOk(reply: Reply)
  {
    Answers(reply, 200)
  }

  /** The first attempt in [i, n) whose probe answers 200, or n if none. */
  function FirstReady(probe: nat -> Reply, i: nat, n: nat): (k: nat)
    requires i <= n
    ensures i <= k <= n
    ensures forall j :: i <= j < k ==> !ProbeOk(probe(j))
    ensures k < n ==> ProbeOk(probe(k))
    decreases n - i
  {
    if i == n then n
    else if ProbeOk(probe(i)) then i
    else FirstReady(probe, i + 1, n)
  }

  class Check {
    /** How many of save and reload succeeded. */
    var changed: int

    constructor ()
      ensures changed == 0
    {
      changed := 0;
    }

    /** POSTs the save command to the configuration endpoint. */
    method SaveConfig(device: BigIp, reply: Reply) returns (ok: bool)
      modifies device
      ensures device.uri == ConfigPath
      ensures device.sent == old(device.sent) + [SaveRequest(device.host)]
      ensures ok == Answers(reply, 200)
      ensures device.statusCode == StatusAfter(reply) && device.response == ResponseAfter(reply)
      ensures device.changed == (old(device.changed) || ok)
    {
      device.uri := ValidateUri(ConfigPath);
      var r := device.GenericPost(Some(SaveCommand), reply);
      ok := r == Some(true);
    }

    /** POSTs the reboot command to the configuration endpoint. */
    method ReloadDevice(device: BigIp, reply: Reply) returns (ok: bool)
      modifies device
      ensures device.uri == ConfigPath
      ensures device.sent == old(device.sent) + [ReloadRequest(device.host)]
      ensures ok == Answers(reply, 200)
      ensures device.statusCode == StatusAfter(reply) && device.response == ResponseAfter(reply)
      ensures device.changed == (old(device.changed) || ok)
    {
      device.uri := ValidateUri(ConfigPath);
      var r := device.GenericPost(Some(ReloadCommand), reply);
      ok := r == Some(true);
    }

    /** GETs the device endpoint; ready exactly on 200. */
    method TestReady(device: BigIp, reply: Reply) returns (ok: bool)
      modifies device
      ensures device.uri == DevicePath
      ensures device.sent == old(device.sent) + [ReadyRequest(device.host)]
      ensures ok == ProbeOk(reply)
      ensures device.statusCode == StatusAfter(reply) && device.response == ResponseAfter(reply)
      ensures device.changed == old(device.changed)
    {
      device.uri := ValidateUri(DevicePath);
      var r := device.GenericGet(None, reply);
      ok := r == Some(true);
    }

    function DeviceChanged(): (r: bool)
      reads this
      ensures r <==> changed != 0
    {
      changed != 0
    }
  }

  /** How the module ends: "Ready" with the changed flag and the facts, a
      failure message, or an uncaught exception. */
  datatype CheckOutcome = Ready(changed: bool, facts: Value) | Aborted(msg: string) | Raised

  /** The requests sent before polling: the save when asked for, then the
      reload when asked for. */
  function Preamble(host: string, saveConfig: bool, reload: bool): seq<Request>
  {
    (if saveConfig then [SaveRequest(host)] else []) + (if reload then [ReloadRequest(host)] else [])
  }

  /** How many probes the polling loop sends: up to the first that answers
      200, all `n` when none does, and only the first when a failed probe
      makes the wait raise. */
  function ProbesSent(probe: nat -> Reply, n: nat, stopOnFail: bool): (m: nat)
    ensures m <= n
    ensures m == 0 <==> n == 0
  {
    var k := FirstReady(probe, 0, n);
    if stopOnFail && n > 0 && !ProbeOk(probe(0)) then 1
    else if k < n then k + 1
    else n
  }

  /** The polling loop of the module: up to `n` probes of the device
      endpoint, ending at the first one that answers 200. When
      `stopOnFail` holds (a negative interval), the wait after a failed
      probe raises, so at most one probe is sent. The connection is left
      pointing at the device endpoint with the last probe's status and
      response, and its `changed` flag is never touched. */
  method AwaitReady(me: Check, f5: BigIp, n: nat, stopOnFail: bool, probe: nat -> Reply)
    returns (o: CheckOutcome)
    modifies f5
    ensures var k := FirstReady(probe, 0, n);
      if stopOnFail && n > 0 && !ProbeOk(probe(0)) then o == Raised
      else if k < n then o == Ready(me.DeviceChanged(), BuildFacts(ResponseAfter(probe(k))))
      else o == Aborted(NotReady)
    ensures f5.sent == old(f5.sent) + Polls(f5.host, ProbesSent(probe, n, stopOnFail))
    ensures f5.changed == old(f5.changed)
    ensures var m := ProbesSent(probe, n, stopOnFail);
      && (m == 0 ==> f5.uri == old(f5.uri) && f5.statusCode == old(f5.statusCode) && f5.response == old(f5.response))
      && (m > 0 ==>
            && f5.uri == DevicePath
            && f5.statusCode == StatusAfter(probe(m - 1))
            && f5.response == ResponseAfter(probe(m - 1)))
  {
    var i := 0;
    while i < n
      invariant 0 <= i <= n
      invariant stopOnFail ==> i == 0
      invariant f5.sent == old(f5.sent) + Polls(f5.host, i)
      invariant forall j :: 0 <= j < i ==> !ProbeOk(probe(j))
      invariant f5.changed == old(f5.changed)
      invariant i == 0 ==> f5.uri == old(f5.uri) && f5.statusCode == old(f5.statusCode) && f5.response == old(f5.response)
      invariant i > 0 ==>
        && f5.uri == DevicePath
        && f5.statusCode == StatusAfter(probe(i - 1))
        && f5.response == ResponseAfter(probe(i - 1))
    {
      var ready := me.TestReady(f5, probe(i));
      PollsSnoc(f5.host, i);
      if ready {
        return Ready(me.DeviceChanged(), BuildFacts(f5.response));
      }
      if stopOnFail {
        return Raised;
      }
      i := i + 1;
    }
    return Aborted(NotReady);
  }

  /** The module as a whole. Save runs before reload and a failed save stops
      the run before any reload; then `RangeCount(timeout, interval)`
      attempts are made and the first one that answers 200 ends the run
      with "Ready". A zero interval makes `range` raise, and a negative one
      makes the wait after a failed attempt raise. */
  method RunModule(host: string, saveConfig: bool, reload: bool, timeout: int, interval: int,
                   saveReply: Reply, reloadReply: Reply, probe: nat -> Reply)
    returns (o: CheckOutcome, wire: seq<Request>)
    ensures saveConfig && !Answers(saveReply, 200) ==>
      o == Aborted(SaveFailed) && wire == [SaveRequest(host)]
    ensures (!saveConfig || Answers(saveReply, 200)) && reload && !Answers(reloadReply, 200) ==>
      o == Aborted(ReloadFailed) && wire == Preamble(host, saveConfig, reload)
    ensures (!saveConfig || Answers(saveReply, 200)) && (!reload || Answers(reloadReply, 200)) ==>
      && (interval == 0 ==> o == Raised && wire == Preamble(host, saveConfig, reload))
      && (interval != 0 ==>
            var n := RangeCount(timeout, interval);
            var k := FirstReady(probe, 0, n);
            if interval < 0 && n > 0 && !ProbeOk(probe(0)) then
              o == Raised && wire == Preamble(host, saveConfig, reload) + Polls(host, 1)
            else if k < n then
              && o == Ready(saveConfig || reload, BuildFacts(ResponseAfter(probe(k))))
              && wire == Preamble(host, saveConfig, reload) + Polls(host, k + 1)
            else
              o == Aborted(NotReady) && wire == Preamble(host, saveConfig, reload) + Polls(host, n))
  {
    var f5 := new BigIp(host, "/");
    var me := new Check();
    if saveConfig {
      var ok := me.SaveConfig(f5, saveReply);
      if ok {
        me.changed := me.changed + 1;
      } else {
        return Aborted(SaveFailed), f5.sent;
      }
    }
    if reload {
      var ok := me.ReloadDevice(f5, reloadReply);
      if ok {
        me.changed := me.changed + 1;
      } else {
        return Aborted(ReloadFailed), f5.sent;
      }
    }
    ghost var pre := Preamble(host, saveConfig, reload);
    assert f5.sent == pre;
    if interval == 0 {
      return Raised, f5.sent;
    }
    // One increment per successful save or reload.
    assert me.changed == (if saveConfig then 1 else 0) + (if reload then 1 else 0);
    var n := RangeCount(timeout, interval);
    o := AwaitReady(me, f5, n, interval < 0, probe);
    wire := f5.sent;
  }
}
