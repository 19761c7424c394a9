/** The static helpers and the state updates of `HDMIMatrixZone`
    (custom_components/nohassle_hdmi_matrix/media_player.py), the media
    player's copy of the client.

    As in the controller, the transport is `t: nat -> Outcome` and sleeps are a
    returned delay log. A helper that wraps `send_instr` is a function of the
    reply that `send_instr` gave it (`reply: Option<Response>`). Exceptions that
    escape a helper are `Raises`. */
module Zone {
  import opened Wire
  import opened Names

  /** The `time.sleep(5)` after a power-on command. */
  const PowerOnSettle: nat := 5

  /** The key both `get_devices` and `get_sources` read names from. */
  const NamesKey: string := "name"

  // ----------------- send_instr -----------------

  /** The attempt succeeds: status 200 and a body that parses. There is no
      `comhead` check in this copy. */
  predicate Good(o: Outcome) {
    o.Reply? && o.status == 200 && o.body.Parsed?
  }

  /** Attempts `i`, ..., `attempts - 1` (0-based) of `send_instr`. */
  function SendFrom(attempts: int, t: nat -> Outcome, i: nat): Run
    decreases attempts - i
  {
    if i >= attempts then Run(None, 0, [])
    else
      match t(i)
      case Reply(200, Parsed(m)) => Run(Some(m), 1, [])
      case Reply(status, _) =>
        var rest := SendFrom(attempts, t, i + 1);
        Run(rest.result, rest.calls + 1, (if status == 200 then [RetryDelay] else []) + rest.delays)
      case Raised =>
        var rest := SendFrom(attempts, t, i + 1);
        Run(rest.result, rest.calls + 1, [RetryDelay] + rest.delays)
  }

  /** One attempt of `send_instr`: a good reply ends the loop, anything else
      costs a call and, when it raised, one sleep. */
  lemma SendStep(attempts: int, t: nat -> Outcome, i: nat)
    requires i < attempts
    ensures Good(t(i)) ==> SendFrom(attempts, t, i) == Run(Some(t(i).body.json), 1, [])
    ensures !Good(t(i)) ==>
              var rest := SendFrom(attempts, t, i + 1);
              SendFrom(attempts, t, i) ==
                Run(rest.result, rest.calls + 1, (if Raising(t(i)) then [RetryDelay] else []) + rest.delays)
  {
  }

  /** The loop invariant of `SendInstr` survives an attempt that was not good. */
  lemma SendAdvance(attempts: int, t: nat -> Outcome, calls: nat, delays: seq<nat>)
    requires calls < attempts && !Good(t(calls))
    requires var rest := SendFrom(attempts, t, calls);
             SendFrom(attempts, t, 0) == Run(rest.result, calls + rest.calls, delays + rest.delays)
    ensures var rest := SendFrom(attempts, t, calls + 1);
            var pause := if Raising(t(calls)) then [RetryDelay] else [];
            SendFrom(attempts, t, 0) == Run(rest.result, calls + 1 + rest.calls, (delays + pause) + rest.delays)
  {
    SendStep(attempts, t, calls);
    var rest := SendFrom(attempts, t, calls + 1);
    var pause := if Raising(t(calls)) then [RetryDelay] else [];
    assert delays + (pause + rest.delays) == (delays + pause) + rest.delays;
  }

  /** `send_instr(host, instr, attempts)`. What the device answers does not depend
      on `instr` in this model; `instr` is what every call posts. */
  method SendInstr(instr: Instruction, attempts: int, t: nat -> Outcome)
    returns (result: Option<Response>, calls: nat, delays: seq<nat>)
    ensures Run(result, calls, delays) == SendFrom(attempts, t, 0)
  {
    calls, delays := 0, [];
    var attempt := 1;
    while attempt <= attempts
      invariant attempt >= 1 && calls == attempt - 1
      invariant attempts >= 0 ==> attempt <= attempts + 1
      invariant var rest := SendFrom(attempts, t, calls);
                SendFrom(attempts, t, 0) == Run(rest.result, calls + rest.calls, delays + rest.delays)
      decreases attempts + 1 - attempt
    {
      var outcome := t(attempt - 1);
      if Good(outcome) {
        SendStep(attempts, t, calls);
        result, calls := Some(outcome.body.json), calls + 1;
        return;
      }
      var pause := if Raising(outcome) then [RetryDelay] else [];
      SendAdvance(attempts, t, calls, delays);
      calls, delays := calls + 1, delays + pause;
      attempt := attempt + 1;
    }
    result := None;
  }

  /** At most `attempts` calls; the first parsed 200 reply is returned as it is;
      `None` after every attempt failed, and no call at all when `attempts <= 0`. */
  lemma {:induction false} SendFirstGood(attempts: int, t: nat -> Outcome, i: nat)
    ensures var r := SendFrom(attempts, t, i);
      && (i <= attempts ==> r.calls <= attempts - i)
      && (r.result.Some? ==>
            && r.calls >= 1 && i + r.calls <= attempts
            && Good(t(i + r.calls - 1)) && r.result.value == t(i + r.calls - 1).body.json
            && forall j :: i <= j < i + r.calls - 1 ==> !Good(t(j)))
      && (r.result.None? ==>
            && r.calls == (if i <= attempts then attempts - i else 0)
            && forall j :: i <= j < attempts ==> !Good(t(j)))
    decreases attempts - i
  {
    if i < attempts {
      SendFirstGood(attempts, t, i + 1);
    }
  }

  /** Sleeps happen only after a raising attempt, one second each. */
  lemma {:induction false} SendSleeps(attempts: int, t: nat -> Outcome, i: nat)
    ensures var r := SendFrom(attempts, t, i);
      && |r.delays| == RaisingCount(t, i, i + r.calls)
      && forall k :: 0 <= k < |r.delays| ==> r.delays[k] == RetryDelay
    decreases attempts - i
  {
    if i < attempts {
      SendSleeps(attempts, t, i + 1);
      var rest := SendFrom(attempts, t, i + 1);
      if !Good(t(i)) {
        assert RaisingCount(t, i, i + rest.calls + 1)
            == (if Raising(t(i)) then 1 else 0) + RaisingCount(t, i + 1, i + 1 + rest.calls);
      }
    }
  }

  // ----------------- status helpers -----------------

  /** `get_status`, `get_videostatus` and `set_device_source` on what `send_instr`
      returned: the reply when it is truthy, otherwise `None`. */
  function Answered(reply: Option<Response>): (r: Option<Response>)
    ensures r.Some? <==> TruthyReply(reply)
    ensures r.Some? ==> r == reply
  {
    if TruthyReply(reply) then reply else None
  }

  /** `get_input_status` / `get_output_status` on what `send_instr` returned:
      the reply only when it is truthy and echoes the requested command. */
  function Echoed(command: string, reply: Option<Response>): (r: Option<Response>)
    ensures r.Some? <==> TruthyReply(reply) && Get(reply.value, "comhead") == VStr(command)
    ensures r.Some? ==> r == reply
  {
    if TruthyReply(reply) && Get(reply.value, "comhead") == VStr(command) then reply else None
  }

  /** The two filters agree on replies that echo the command, and `Echoed` is
      the stricter one: whatever it accepts `Answered` accepts too. */
  lemma EchoedRefinesAnswered(command: string, reply: Option<Response>)
    ensures Echoed(command, reply).Some? ==> Answered(reply) == Echoed(command, reply)
    ensures Answered(reply).Some? && Get(reply.value, "comhead") != VStr(command) ==> Echoed(command, reply).None?
  {
  }

  /** `get_devices` (on the output status) and `get_sources` (on the input
      status): `None` when the status is missing or its `name` field is absent or
      falsy; the deduplicated list when the field is a list of names; an
      exception from the deduplicator for any other truthy field. */
  function GetNames(status: Option<Response>): (r: Eval<Option<seq<string>>>)
    ensures r == Returns(None) <==> status.None? || !Truthy(Get(status.value, NamesKey))
    ensures r.Returns? && r.value.Some? ==>
              status.Some? && NameList(Get(status.value, NamesKey)).Some? &&
              r.value.value == Dedup(NameList(Get(status.value, NamesKey)).value) &&
              |r.value.value| == |Get(status.value, NamesKey).items| > 0
    ensures r.Raises? <==>
              (status.Some? && Truthy(Get(status.value, NamesKey)) && NameList(Get(status.value, NamesKey)).None?)
  {
    if status.None? then Returns(None)
    else
      var field := Get(status.value, NamesKey);
      if !Truthy(field) then Returns(None)
      else match NameList(field)
        case Some(names) => DedupLength(names); Returns(Some(Dedup(names)))
        case None => Raises
  }

  /** `are_devices_powered_on(host)` on what `get_status` returned: unknown when
      the status is missing or has no `power`; otherwise `int(power) == 1`, with
      `int` raising on values it cannot convert. */
  function PoweredOn(status: Option<Response>): (r: Eval<Option<bool>>)
    ensures r == Returns(None) <==> status.None? || "power" !in status.value
    ensures r.Raises? <==> status.Some? && "power" in status.value && IntOf(status.value["power"]).Raises?
    ensures r == Returns(Some(true)) <==>
              status.Some? && "power" in status.value && IntOf(status.value["power"]) == Returns(1)
  {
    if status.None? || "power" !in status.value then Returns(None)
    else match IntOf(status.value["power"])
      case Raises => Raises
      case Returns(p) => Returns(Some(p == 1))
  }

  // ----------------- the helpers that post an instruction -----------------

  /** `get_status(host)`: posts the `get status` query and passes on a truthy
      reply. */
  function GetStatus(t: nat -> Outcome): (r: Exchange)
    ensures Decode(r.posted) == Some(Query(GetStatusCommand))
    ensures var sent := SendFrom(DefaultAttempts, t, 0);
      && (r.result.Some? <==> TruthyReply(sent.result))
      && (r.result.Some? ==> r.result == sent.result)
      && r.calls == sent.calls && r.delays == sent.delays
  {
    DecodeBuilders(GetStatusCommand, 0, 0, 0);
    var sent := SendFrom(DefaultAttempts, t, 0);
    Exchange(Command(GetStatusCommand), Answered(sent.result), sent.calls, sent.delays)
  }

  /** `get_video_status(host)`: posts the `get videostatus` query and passes on
      a truthy reply. */
  function GetVideoStatus(t: nat -> Outcome): (r: Exchange)
    ensures Decode(r.posted) == Some(Query(GetVideoStatusCommand))
    ensures var sent := SendFrom(DefaultAttempts, t, 0);
      && (r.result.Some? <==> TruthyReply(sent.result))
      && (r.result.Some? ==> r.result == sent.result)
      && r.calls == sent.calls && r.delays == sent.delays
  {
    DecodeBuilders(GetVideoStatusCommand, 0, 0, 0);
    var sent := SendFrom(DefaultAttempts, t, 0);
    Exchange(Command(GetVideoStatusCommand), Answered(sent.result), sent.calls, sent.delays)
  }

  /** `get_input_status(host)`: posts the `get input status` query and passes on
      a truthy reply that echoes it. */
  function GetInputStatus(t: nat -> Outcome): (r: Exchange)
    ensures Decode(r.posted) == Some(Query(GetInputStatusCommand))
    ensures var sent := SendFrom(DefaultAttempts, t, 0);
      && (r.result.Some? <==>
            TruthyReply(sent.result) && Get(sent.result.value, "comhead") == VStr(GetInputStatusCommand))
      && (r.result.Some? ==> r.result == sent.result)
      && r.calls == sent.calls && r.delays == sent.delays
  {
    DecodeBuilders(GetInputStatusCommand, 0, 0, 0);
    var sent := SendFrom(DefaultAttempts, t, 0);
    Exchange(Command(GetInputStatusCommand), Echoed(GetInputStatusCommand, sent.result), sent.calls, sent.delays)
  }

  /** `get_output_status(host)`: posts the `get output status` query and passes
      on a truthy reply that echoes it. */
  function GetOutputStatus(t: nat -> Outcome): (r: Exchange)
    ensures Decode(r.posted) == Some(Query(GetOutputStatusCommand))
    ensures var sent := SendFrom(DefaultAttempts, t, 0);
      && (r.result.Some? <==>
            TruthyReply(sent.result) && Get(sent.result.value, "comhead") == VStr(GetOutputStatusCommand))
      && (r.result.Some? ==> r.result == sent.result)
      && r.calls == sent.calls && r.delays == sent.delays
  {
    DecodeBuilders(GetOutputStatusCommand, 0, 0, 0);
    var sent := SendFrom(DefaultAttempts, t, 0);
    Exchange(Command(GetOutputStatusCommand), Echoed(GetOutputStatusCommand, sent.result), sent.calls, sent.delays)
  }

  /** `set_device_source(host, device_num, source_num)`: posts a `video switch`
      whose `source` is `[source_num, device_num]`, that is a route of source
      `source_num` to output `device_num`, and passes on a truthy reply. */
  function SetDeviceSource(deviceNum: int, sourceNum: int, t: nat -> Outcome): (r: Exchange)
    ensures Decode(r.posted) == Some(Route(deviceNum, sourceNum))
    ensures r.posted["source"] == VList([VInt(sourceNum), VInt(deviceNum)])
    ensures var sent := SendFrom(DefaultAttempts, t, 0);
      && (r.result.Some? <==> TruthyReply(sent.result))
      && (r.result.Some? ==> r.result == sent.result)
      && r.calls == sent.calls && r.delays == sent.delays
  {
    DecodeBuilders(GetStatusCommand, 0, deviceNum, sourceNum);
    var sent := SendFrom(DefaultAttempts, t, 0);
    Exchange(VideoSwitch(deviceNum, sourceNum), Answered(sent.result), sent.calls, sent.delays)
  }

  /** `power_on_devices(host)`: posts `set poweronoff` with `power` 1, then
      sleeps 5 whatever the device answered, and returns nothing. */
  function PowerOnDevices(t: nat -> Outcome): (r: Exchange)
    ensures Decode(r.posted) == Some(Power(1))
    ensures r.result == None
    ensures r.calls == SendFrom(DefaultAttempts, t, 0).calls
    ensures |r.delays| > 0 && r.delays[|r.delays| - 1] == PowerOnSettle
    ensures r.delays[..|r.delays| - 1] == SendFrom(DefaultAttempts, t, 0).delays
  {
    DecodeBuilders(GetStatusCommand, 1, 0, 0);
    var sent := SendFrom(DefaultAttempts, t, 0);
    assert (sent.delays + [PowerOnSettle])[..|sent.delays|] == sent.delays;
    Exchange(SetPower(1), None, sent.calls, sent.delays + [PowerOnSettle])
  }

  /** `power_off_devices(host)`: posts `set poweronoff` with `power` 0 and has
      no settle sleep: only the 1-second retry sleeps of `send_instr` remain. */
  function PowerOffDevices(t: nat -> Outcome): (r: Exchange)
    ensures Decode(r.posted) == Some(Power(0))
    ensures r.result == None
    ensures r.calls == SendFrom(DefaultAttempts, t, 0).calls && r.calls <= DefaultAttempts
    ensures r.delays == SendFrom(DefaultAttempts, t, 0).delays
    ensures forall k :: 0 <= k < |r.delays| ==> r.delays[k] == RetryDelay
  {
    DecodeBuilders(GetStatusCommand, 0, 0, 0);
    SendSleeps(DefaultAttempts, t, 0);
    SendFirstGood(DefaultAttempts, t, 0);
    var sent := SendFrom(DefaultAttempts, t, 0);
    Exchange(SetPower(0), None, sent.calls, sent.delays)
  }

  // ----------------- deduplicate_names -----------------

  /** `deduplicate_names(names)`: rewrites the list in place and returns it. */
  method DeduplicateNames(names: array<string>) returns (r: array<string>)
    modifies names
    ensures r == names
    ensures names[..] == Dedup(old(names[..]))
  {
    ghost var original := names[..];
    var seen: map<string, nat> := map[];
    var i := 0;
    while i < names.Length
      invariant 0 <= i <= names.Length
      invariant names[..i] == Dedup(original[..i])
      invariant forall j :: i <= j < names.Length ==> names[j] == original[j]
      invariant seen == Seen(original[..i])
    {
      DedupStep(original, i);
      var name := names[i];
      if name !in seen {
        seen := seen[name := 0];
      } else {
        seen := seen[name := seen[name] + 1];
        name := Suffixed(name, seen[name]);
      }
      names[i] := name;
      assert names[..i + 1] == names[..i] + [name];
      i := i + 1;
    }
    assert original[..names.Length] == original && names[..names.Length] == names[..];
    r := names;
  }

  // ----------------- the media player entity -----------------

  datatype PlayerState = On | Off

  /** What `update` writes into `_source`: the lookup it tries reads the
      attribute `_device_id`, which the class never assigns, so it always lands
      in the exception handler. */
  const UnknownSource: string := "Unknown"
  /** The same value as written by `__init__`. */
  const InitialUnknownSource: string := "UNKNOWN"

  class HDMIMatrixZone {
    const hdmiHost: string
    const deviceNumber: nat
    const deviceName: string
    const sources: Option<seq<string>>
    var state: PlayerState
    var source: string

    constructor (hdmiHost: string, deviceNumber: nat, deviceName: string, sources: Option<seq<string>>,
                 state: PlayerState)
      ensures this.hdmiHost == hdmiHost && this.deviceNumber == deviceNumber
      ensures this.deviceName == deviceName && this.sources == sources
      ensures this.state == state && this.source == InitialUnknownSource
    {
      this.hdmiHost := hdmiHost;
      this.deviceNumber := deviceNumber;
      this.deviceName := deviceName;
      this.sources := sources;
      this.state := state;
      this.source := InitialUnknownSource;
    }

    /** `__init__(hdmi_host, device_num)` given what `get_devices`, `get_sources`
        and `are_devices_powered_on` did; `null` where `__init__` raises (no
        device list, an index out of range, or a helper that raised). */
    static method Create(hdmiHost: string, deviceNum: nat, devices: Eval<Option<seq<string>>>,
                         sources: Eval<Option<seq<string>>>, powered: Eval<Option<bool>>)
      returns (zone: HDMIMatrixZone?, calls: seq<Call>)
      ensures zone != null <==>
                devices.Returns? && devices.value.Some? && deviceNum < |devices.value.value| &&
                sources.Returns? && powered.Returns?
      ensures zone != null ==>
                && fresh(zone)
                && zone.hdmiHost == hdmiHost && zone.deviceNumber == deviceNum
                && zone.deviceName == devices.value.value[deviceNum]
                && zone.sources == sources.value
                && (zone.state == On <==> powered.value == Some(true))
                && zone.source == InitialUnknownSource
      ensures zone != null ==> calls == [GetDevices, GetSources, QueryPower, GetOutputStatus]
    {
      calls := [GetDevices];
      if devices.Raises? || devices.value.None? || deviceNum >= |devices.value.value| {
        return null, calls;
      }
      calls := calls + [GetSources];
      if sources.Raises? {
        return null, calls;
      }
      calls := calls + [QueryPower];
      if powered.Raises? {
        return null, calls;
      }
      var state := if powered.value == Some(true) then On else Off;
      calls := calls + [GetOutputStatus];
      zone := new HDMIMatrixZone(hdmiHost, deviceNum, devices.value.value[deviceNum], sources.value, state);
    }

    /** `select_source(source)` given what `get_sources(host)` did. A missing
        list raises (`in` on `None`); a source that is absent or at index 0 sends
        nothing and changes nothing; otherwise `set_device_source(device_number,
        index)` is called and `_source` becomes `source`. */
    method SelectSource(source: string, fetched: Eval<Option<seq<string>>>)
      returns (raised: bool, calls: seq<Call>)
      modifies this
      ensures raised <==> !(fetched.Returns? && fetched.value.Some?)
      ensures state == old(state)
      ensures var index := if raised then None else IndexOf(fetched.value.value, source);
        if index.Some? && index.value != 0 then
          calls == [GetSources, SetSource(deviceNumber, index.value)] && this.source == source
        else
          calls == [GetSources] && this.source == old(this.source)
    {
      calls := [GetSources];
      if fetched.Raises? || fetched.value.None? {
        return true, calls;
      }
      raised := false;
      var sourceNum := IndexOf(fetched.value.value, source);
      if sourceNum.None? || sourceNum.value == 0 {
        return;
      }
      calls := calls + [SetSource(deviceNumber, sourceNum.value)];
      this.source := source;
    }

    /** `update()` given what `are_devices_powered_on(host)` did: `_state` is ON
        exactly when it returned `True` (so unknown and an exception both give
        OFF), and `_source` becomes "Unknown" after the output status is
        fetched. */
    method Update(powered: Eval<Option<bool>>) returns (calls: seq<Call>)
      modifies this
      ensures state == On <==> powered == Returns(Some(true))
      ensures source == UnknownSource
      ensures calls == [QueryPower, GetOutputStatus]
    {
      calls := [QueryPower];
      if powered == Returns(Some(true)) {
        state := On;
      } else {
        state := Off;
      }
      calls := calls + [GetOutputStatus];
      source := UnknownSource;
    }
  }
}
