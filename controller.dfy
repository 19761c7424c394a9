/** `NoHassleHDMOMatrixController` (custom_components/nohassle_hdmi_matrix/nohassle_hdmi_matrix.py):
    the client used by the select and switch entities.

    The transport is a parameter `t: nat -> Outcome`: `t(k)` is what the k-th
    `urlopen` call (counting from 0) of one `_send_instr` does. `time.sleep`
    becomes an entry in a returned delay log. The controller calls
    `get_status`, `get_input_status` and `get_output_status` but does not define
    them; they are oracles whose replies are parameters of type
    `Eval<Option<Response>>`. `Returns(r)` is the reply of the evidently intended
    `_send_command(<comhead>)`; `Raises` is the `AttributeError` the code as
    written raises. */
module Controller {
  import opened Wire
  import opened Names

  /** The `delay=2` of `_perform_power_command`. */
  const PowerDelay: nat := 2

  /** The keys the device and source lists are read from. */
  const DeviceNamesKey: string := "name"
  const SourceNamesKey: string := "inname"

  // ----------------- _send_instr -----------------

  /** The attempt succeeds: status 200, the body parses to an object, and its
      `comhead` equals the instruction's. */
  predicate Good(instr: Instruction, o: Outcome) {
    o.Reply? && o.status == 200 && o.body.Parsed? && Get(o.body.json, "comhead") == Get(instr, "comhead")
  }

  /** Attempts `i`, `i + 1`, ..., `attempts - 1` (0-based) of `_send_instr`. */
  function SendFrom(instr: Instruction, attempts: int, t: nat -> Outcome, i: nat): Run
    decreases attempts - i
  {
    if i >= attempts then Run(None, 0, [])
    else
      match t(i)
      case Reply(200, Parsed(m)) =>
        if Get(m, "comhead") == Get(instr, "comhead") then Run(Some(m), 1, [])
        else var rest := SendFrom(instr, attempts, t, i + 1); Run(rest.result, rest.calls + 1, rest.delays)
      case Reply(status, _) =>
        var rest := SendFrom(instr, attempts, t, i + 1);
        Run(rest.result, rest.calls + 1, (if status == 200 then [RetryDelay] else []) + rest.delays)
      case Raised =>
        var rest := SendFrom(instr, attempts, t, i + 1);
        Run(rest.result, rest.calls + 1, [RetryDelay] + rest.delays)
  }

  /** One attempt of `_send_instr`: a good reply ends the loop, anything else
      costs a call and, when it raised, one sleep. */
  lemma SendStep(instr: Instruction, attempts: int, t: nat -> Outcome, i: nat)
    requires i < attempts
    ensures Good(instr, t(i)) ==> SendFrom(instr, attempts, t, i) == Run(Some(t(i).body.json), 1, [])
    ensures !Good(instr, t(i)) ==>
              var rest := SendFrom(instr, attempts, t, i + 1);
              SendFrom(instr, attempts, t, i) ==
                Run(rest.result, rest.calls + 1, (if Raising(t(i)) then [RetryDelay] else []) + rest.delays)
  {
  }

  /** The loop invariant of `SendInstr` survives an attempt that was not good. */
  lemma SendAdvance(instr: Instruction, attempts: int, t: nat -> Outcome, calls: nat, delays: seq<nat>)
    requires calls < attempts && !Good(instr, t(calls))
    requires var rest := SendFrom(instr, attempts, t, calls);
             SendFrom(instr, attempts, t, 0) == Run(rest.result, calls + rest.calls, delays + rest.delays)
    ensures var rest := SendFrom(instr, attempts, t, calls + 1);
            var pause := if Raising(t(calls)) then [RetryDelay] else [];
            SendFrom(instr, attempts, t, 0) == Run(rest.result, calls + 1 + rest.calls, (delays + pause) + rest.delays)
  {
    SendStep(instr, attempts, t, calls);
    var rest := SendFrom(instr, attempts, t, calls + 1);
    var pause := if Raising(t(calls)) then [RetryDelay] else [];
    assert delays + (pause + rest.delays) == (delays + pause) + rest.delays;
  }

  /** `_send_instr(instr, attempts)`: up to `attempts` tries, returning the first
      matching reply. */
  method SendInstr(instr: Instruction, attempts: int, t: nat -> Outcome)
    returns (result: Option<Response>, calls: nat, delays: seq<nat>)
    ensures Run(result, calls, delays) == SendFrom(instr, attempts, t, 0)
  {
    calls, delays := 0, [];
    var attempt := 1;
    while attempt <= attempts
      invariant attempt >= 1 && calls == attempt - 1
      invariant attempts >= 0 ==> attempt <= attempts + 1
      invariant var rest := SendFrom(instr, attempts, t, calls);
                SendFrom(instr, attempts, t, 0) == Run(rest.result, calls + rest.calls, delays + rest.delays)
      decreases attempts + 1 - attempt
    {
      var outcome := t(attempt - 1);
      if Good(instr, outcome) {
        SendStep(instr, attempts, t, calls);
        result, calls := Some(outcome.body.json), calls + 1;
        return;
      }
      var pause := if Raising(outcome) then [RetryDelay] else [];
      SendAdvance(instr, attempts, t, calls, delays);
      calls, delays := calls + 1, delays + pause;
      attempt := attempt + 1;
    }
    result := None;
  }

  /** At most `attempts` transport calls; all of them when nothing succeeds;
      none at all when `attempts <= 0`. */
  lemma {:induction false} SendCalls(instr: Instruction, attempts: int, t: nat -> Outcome, i: nat)
    ensures var r := SendFrom(instr, attempts, t, i);
      && (i <= attempts ==> r.calls <= attempts - i)
      && (i >= attempts ==> r.calls == 0 && r.result == None)
      && (r.result.None? ==> r.calls == if i <= attempts then attempts - i else 0)
      && (r.result.Some? ==> r.calls >= 1)
    decreases attempts - i
  {
    if i < attempts {
      SendCalls(instr, attempts, t, i + 1);
    }
  }

  /** The first good reply wins: a returned response is the body of the last
      call, that call was good and every earlier one was not; `None` means no
      attempt was good. */
  lemma {:induction false} SendFirstGood(instr: Instruction, attempts: int, t: nat -> Outcome, i: nat)
    ensures var r := SendFrom(instr, attempts, t, i);
      && (r.result.Some? ==>
            && r.calls >= 1 && i + r.calls <= attempts
            && Good(instr, t(i + r.calls - 1)) && r.result.value == t(i + r.calls - 1).body.json
            && forall j :: i <= j < i + r.calls - 1 ==> !Good(instr, t(j)))
      && (r.result.None? ==> forall j :: i <= j < attempts ==> !Good(instr, t(j)))
    decreases attempts - i
  {
    if i < attempts {
      SendFirstGood(instr, attempts, t, i + 1);
    }
  }

  /** Sleeps happen only after a raising attempt: each is one second, and there
      are exactly as many as there were raising outcomes among the calls made. */
  lemma {:induction false} SendSleeps(instr: Instruction, attempts: int, t: nat -> Outcome, i: nat)
    ensures var r := SendFrom(instr, attempts, t, i);
      && |r.delays| == RaisingCount(t, i, i + r.calls)
      && forall k :: 0 <= k < |r.delays| ==> r.delays[k] == RetryDelay
    decreases attempts - i
  {
    if i < attempts {
      SendSleeps(instr, attempts, t, i + 1);
      var rest := SendFrom(instr, attempts, t, i + 1);
      if !Good(instr, t(i)) {
        assert RaisingCount(t, i, i + rest.calls + 1)
            == (if Raising(t(i)) then 1 else 0) + RaisingCount(t, i + 1, i + 1 + rest.calls);
      }
    }
  }

  /** An unreachable device (every call raises): exactly `attempts` calls, one
      sleep after each, and no response. */
  lemma {:induction false} SendUnreachable(instr: Instruction, attempts: int, t: nat -> Outcome, i: nat)
    requires forall k :: i <= k < attempts ==> t(k) == Raised
    ensures var r := SendFrom(instr, attempts, t, i);
      && r.result == None
      && r.calls == (if i <= attempts then attempts - i else 0)
      && r.delays == seq(r.calls, _ => RetryDelay)
    decreases attempts - i
  {
    if i < attempts {
      SendUnreachable(instr, attempts, t, i + 1);
    }
  }

  // ----------------- _log_response and its callers -----------------

  /** `_log_response`'s decision on what `_send_instr` returned. */
  datatype Logged = Logged(response: Option<Response>, delays: seq<nat>)

  function LogResponse(reply: Option<Response>, delay: nat): (r: Logged)
    ensures r.response.Some? <==> TruthyReply(reply)
    ensures r.response.Some? ==> r.response == reply
    ensures r.delays != [] <==> r.response.Some? && delay != 0
    ensures r.delays != [] ==> r.delays == [delay]
  {
    if TruthyReply(reply) then Logged(reply, if delay != 0 then [delay] else []) else Logged(None, [])
  }

  /** `_log_response(instr, action, delay)` with `_send_instr(instr)` run on `t`. */
  function LogResponseRun(instr: Instruction, delay: nat, t: nat -> Outcome): Exchange {
    var sent := SendFrom(instr, DefaultAttempts, t, 0);
    var logged := LogResponse(sent.result, delay);
    Exchange(instr, logged.response, sent.calls, sent.delays + logged.delays)
  }

  /** For an instruction with a non-null `comhead`, `_log_response` posts it,
      returns exactly what `_send_instr` returned (a matching reply has that key,
      so it is never the empty dict), and adds one sleep of `delay` after it when
      that is a response and `delay` is not 0. */
  lemma LogResponseRunResult(instr: Instruction, delay: nat, t: nat -> Outcome)
    requires Get(instr, "comhead") != VNull
    ensures var sent := SendFrom(instr, DefaultAttempts, t, 0);
      && LogResponseRun(instr, delay, t).posted == instr
      && LogResponseRun(instr, delay, t).result == sent.result
      && LogResponseRun(instr, delay, t).calls == sent.calls
      && LogResponseRun(instr, delay, t).delays
         == sent.delays + (if sent.result.Some? && delay != 0 then [delay] else [])
  {
    SendFirstGood(instr, DefaultAttempts, t, 0);
    var sent := SendFrom(instr, DefaultAttempts, t, 0);
    if sent.result.Some? {
      assert Get(sent.result.value, "comhead") != VNull;
    }
  }

  /** `_send_command(command)`: posts the query `command` and returns the
      first reply that echoes it, with only the retry sleeps. */
  function SendCommand(command: string, t: nat -> Outcome): (r: Exchange)
    ensures r.posted == Command(command)
    ensures command != SetPowerCommand && command != VideoSwitchCommand ==> Decode(r.posted) == Some(Query(command))
    ensures var sent := SendFrom(r.posted, DefaultAttempts, t, 0);
      r.result == sent.result && r.calls == sent.calls && r.delays == sent.delays
    ensures r.result.Some? ==> Get(r.result.value, "comhead") == VStr(command)
    ensures r.calls <= DefaultAttempts
  {
    assert command != SetPowerCommand && command != VideoSwitchCommand ==> Decode(Command(command)) == Some(Query(command)) by {
      if command != SetPowerCommand && command != VideoSwitchCommand {
        DecodeBuilders(command, 0, 0, 0);
      }
    }
    LogResponseRunResult(Command(command), 0, t);
    SendFirstGood(Command(command), DefaultAttempts, t, 0);
    SendCalls(Command(command), DefaultAttempts, t, 0);
    LogResponseRun(Command(command), 0, t)
  }

  /** `set_device_source(device_num, source_num)`: posts a `video switch` whose
      `source` is `[source_num, device_num]`, that is a route of source
      `source_num` to output `device_num`; a response is one that echoes
      `video switch`. */
  function SetDeviceSource(deviceNum: int, sourceNum: int, t: nat -> Outcome): (r: Exchange)
    ensures Decode(r.posted) == Some(Route(deviceNum, sourceNum))
    ensures r.posted["source"] == VList([VInt(sourceNum), VInt(deviceNum)])
    ensures var sent := SendFrom(r.posted, DefaultAttempts, t, 0);
      r.result == sent.result && r.calls == sent.calls && r.delays == sent.delays
    ensures r.result.Some? ==> Get(r.result.value, "comhead") == VStr(VideoSwitchCommand)
    ensures r.calls <= DefaultAttempts
  {
    DecodeBuilders(GetStatusCommand, 0, deviceNum, sourceNum);
    LogResponseRunResult(VideoSwitch(deviceNum, sourceNum), 0, t);
    SendFirstGood(VideoSwitch(deviceNum, sourceNum), DefaultAttempts, t, 0);
    SendCalls(VideoSwitch(deviceNum, sourceNum), DefaultAttempts, t, 0);
    LogResponseRun(VideoSwitch(deviceNum, sourceNum), 0, t)
  }

  /** `_perform_power_command(power_state, action)`: posts `set poweronoff` with
      `power = power_state`, sleeps 2 after the retries only when the device
      answered, and returns nothing. */
  function PerformPowerCommand(powerState: int, t: nat -> Outcome): (r: Exchange)
    ensures Decode(r.posted) == Some(Power(powerState))
    ensures r.result == None
    ensures var sent := SendFrom(r.posted, DefaultAttempts, t, 0);
      && r.calls == sent.calls
      && r.delays == sent.delays + (if sent.result.Some? then [PowerDelay] else [])
  {
    DecodeBuilders(GetStatusCommand, powerState, 0, 0);
    LogResponseRunResult(SetPower(powerState), PowerDelay, t);
    var logged := LogResponseRun(SetPower(powerState), PowerDelay, t);
    Exchange(logged.posted, None, logged.calls, logged.delays)
  }

  /** `power_on_devices()`: the power command with state 1. */
  function PowerOnDevices(t: nat -> Outcome): (r: Exchange)
    ensures Decode(r.posted) == Some(Power(1))
    ensures r.result == None
    ensures var sent := SendFrom(r.posted, DefaultAttempts, t, 0);
      && r.calls == sent.calls
      && r.delays == sent.delays + (if sent.result.Some? then [PowerDelay] else [])
  {
    PerformPowerCommand(1, t)
  }

  /** `power_off_devices()`: the power command with state 0. */
  function PowerOffDevices(t: nat -> Outcome): (r: Exchange)
    ensures Decode(r.posted) == Some(Power(0))
    ensures r.result == None
    ensures var sent := SendFrom(r.posted, DefaultAttempts, t, 0);
      && r.calls == sent.calls
      && r.delays == sent.delays + (if sent.result.Some? then [PowerDelay] else [])
  {
    PerformPowerCommand(0, t)
  }

  // ----------------- are_devices_powered_on -----------------

  /** `are_devices_powered_on()` given what `get_status()` did: unknown when
      the status is missing, empty or has no `power`; otherwise `power == 1`,
      compared without converting to `int`. */
  function ArePoweredOn(status: Eval<Option<Response>>): (r: Eval<Option<bool>>)
    ensures r.Raises? <==> status.Raises?
    ensures r == Returns(None) <==>
              status.Returns? && (!TruthyReply(status.value) || "power" !in status.value.value)
    ensures r == Returns(Some(true)) <==>
              status.Returns? && TruthyReply(status.value) && "power" in status.value.value &&
              EqualsOne(status.value.value["power"])
  {
    match status
    case Raises => Raises
    case Returns(s) =>
      if !TruthyReply(s) || "power" !in s.value then Returns(None)
      else Returns(Some(EqualsOne(s.value["power"])))
  }

  // ----------------- get_devices / get_sources -----------------

  /** What one attempt of the retry loop in `get_devices` / `get_sources` does. */
  datatype NamesStep = Found(names: seq<string>) | Skip | Pause

  /** One attempt, given what the status getter did: `continue` without sleeping
      on a missing or empty status or a missing key; return the deduplicated
      list when the field is a non-empty list of names; otherwise (an empty
      field, a getter that raised, a field the deduplicator raises on) sleep 1
      and go on. */
  function Attempt(key: string, reply: Eval<Option<Response>>): NamesStep {
    match reply
    case Raises => Pause
    case Returns(status) =>
      if !TruthyReply(status) || key !in status.value then Skip
      else
        var field := status.value[key];
        if !Truthy(field) then Pause
        else match NameList(field)
          case Some(names) => Found(Dedup(names))
          case None => Pause
  }

  /** The names fetched, the number of getter calls, and the sleeps. */
  datatype NamesRun = NamesRun(names: Option<seq<string>>, queries: nat, delays: seq<nat>)

  /** Attempts `i`, ..., `attempts - 1` of the retry loop. */
  function NamesFrom(key: string, attempts: int, replies: nat -> Eval<Option<Response>>, i: nat): NamesRun
    decreases attempts - i
  {
    if i >= attempts then NamesRun(None, 0, [])
    else
      match Attempt(key, replies(i))
      case Found(names) => NamesRun(Some(names), 1, [])
      case Skip =>
        var rest := NamesFrom(key, attempts, replies, i + 1);
        NamesRun(rest.names, rest.queries + 1, rest.delays)
      case Pause =>
        var rest := NamesFrom(key, attempts, replies, i + 1);
        NamesRun(rest.names, rest.queries + 1, [RetryDelay] + rest.delays)
  }

  /** A reply whose `key` field is a non-empty list of names. */
  predicate Usable(key: string, reply: Eval<Option<Response>>) {
    && reply.Returns? && TruthyReply(reply.value) && key in reply.value.value
    && NameList(reply.value.value[key]).Some? && NameList(reply.value.value[key]).value != []
  }

  /** The retry loop of `get_devices` (key `name`) and `get_sources` (key
      `inname`), deduplicating in place on a fresh list. */
  method FetchNames(key: string, attempts: int, replies: nat -> Eval<Option<Response>>)
    returns (names: Option<seq<string>>, queries: nat, delays: seq<nat>)
    ensures NamesRun(names, queries, delays) == NamesFrom(key, attempts, replies, 0)
  {
    queries, delays := 0, [];
    var attempt := 1;
    while attempt <= attempts
      invariant attempt >= 1 && queries == attempt - 1
      invariant attempts >= 0 ==> attempt <= attempts + 1
      invariant var rest := NamesFrom(key, attempts, replies, queries);
                NamesFrom(key, attempts, replies, 0) == NamesRun(rest.names, queries + rest.queries, delays + rest.delays)
      decreases attempts + 1 - attempt
    {
      var reply := replies(attempt - 1);
      queries := queries + 1;
      attempt := attempt + 1;
      if reply.Returns? {
        var status := reply.value;
        if !TruthyReply(status) || key !in status.value {
          continue;
        }
        var field := status.value[key];
        if Truthy(field) {
          var list := NameList(field);
          if list.Some? {
            var a := new string[|list.value|](j requires 0 <= j < |list.value| => list.value[j]);
            assert a[..] == list.value;
            var deduplicated := DeduplicateNames(a);
            names := Some(deduplicated[..]);
            return;
          }
        }
      }
      delays := delays + [RetryDelay];
    }
    names := None;
  }

  /** `get_devices(attempts)`. */
  method GetDevices(attempts: int, replies: nat -> Eval<Option<Response>>)
    returns (devices: Option<seq<string>>, queries: nat, delays: seq<nat>)
    ensures NamesRun(devices, queries, delays) == NamesFrom(DeviceNamesKey, attempts, replies, 0)
  {
    devices, queries, delays := FetchNames(DeviceNamesKey, attempts, replies);
  }

  /** `get_sources(attempts)`: the same loop on the `inname` field. */
  method GetSources(attempts: int, replies: nat -> Eval<Option<Response>>)
    returns (sources: Option<seq<string>>, queries: nat, delays: seq<nat>)
    ensures NamesRun(sources, queries, delays) == NamesFrom(SourceNamesKey, attempts, replies, 0)
  {
    sources, queries, delays := FetchNames(SourceNamesKey, attempts, replies);
  }

  /** At most `attempts` getter calls; a list is the deduplicated field of the
      last reply, which was the first usable one; `None` means no reply was
      usable and every attempt was made. */
  lemma {:induction false} NamesFirstUsable(key: string, attempts: int, replies: nat -> Eval<Option<Response>>, i: nat)
    ensures var r := NamesFrom(key, attempts, replies, i);
      && (i <= attempts ==> r.queries <= attempts - i)
      && (r.names.Some? ==>
            && r.queries >= 1 && i + r.queries <= attempts
            && Usable(key, replies(i + r.queries - 1))
            && r.names.value == Dedup(NameList(replies(i + r.queries - 1).value.value[key]).value)
            && r.names.value != []
            && forall j :: i <= j < i + r.queries - 1 ==> !Usable(key, replies(j)))
      && (r.names.None? ==>
            && r.queries == (if i <= attempts then attempts - i else 0)
            && forall j :: i <= j < attempts ==> !Usable(key, replies(j)))
    decreases attempts - i
  {
    if i < attempts {
      NamesFirstUsable(key, attempts, replies, i + 1);
      var reply := replies(i);
      if Attempt(key, reply).Found? {
        DedupLength(NameList(reply.value.value[key]).value);
      }
    }
  }

  /** `get_device_count()`: the length of `get_devices()`, or 0. */
  method GetDeviceCount(replies: nat -> Eval<Option<Response>>) returns (count: nat, delays: seq<nat>)
    ensures var r := NamesFrom(DeviceNamesKey, DefaultAttempts, replies, 0);
      && (count == 0 <==> r.names.None?)
      && (r.names.Some? ==> count == |r.names.value|)
      && delays == r.delays
  {
    var devices, queries;
    devices, queries, delays := GetDevices(DefaultAttempts, replies);
    NamesFirstUsable(DeviceNamesKey, DefaultAttempts, replies, 0);
    count := if devices.Some? && devices.value != [] then |devices.value| else 0;
  }

  /** The code as written calls `self.get_output_status()` / `self.get_input_status()`,
      which the class does not define: every attempt raises `AttributeError`, is
      caught, and sleeps. `get_devices` and `get_sources` then always give `None`
      after `attempts` sleeps, and `get_device_count` 0. */
  lemma {:induction false} NamesWithoutGetter(key: string, attempts: int, replies: nat -> Eval<Option<Response>>, i: nat)
    requires forall k :: i <= k < attempts ==> replies(k) == Raises
    ensures var r := NamesFrom(key, attempts, replies, i);
      && r.names == None
      && r.queries == (if i <= attempts then attempts - i else 0)
      && r.delays == seq(r.queries, _ => RetryDelay)
    decreases attempts - i
  {
    if i < attempts {
      NamesWithoutGetter(key, attempts, replies, i + 1);
    }
  }

  // ----------------- _deduplicate_names -----------------

  /** `_deduplicate_names(names)`: `None` or `[]` gives a new empty list; any
      other list is rewritten in place and returned. */
  method DeduplicateNames(names: array?<string>) returns (r: array<string>)
    modifies names
    ensures names == null || names.Length == 0 ==> fresh(r) && r.Length == 0
    ensures names != null && names.Length > 0 ==> r == names && r[..] == Dedup(old(names[..]))
  {
    if names == null || names.Length == 0 {
      r := new string[0];
      return;
    }
    ghost var original := names[..];
    var seen: map<string, nat> := map[];
    for i := 0 to names.Length
      invariant names[..i] == Dedup(original[..i])
      invariant forall j :: i <= j < names.Length ==> names[j] == original[j]
      invariant seen == Seen(original[..i])
    {
      DedupStep(original, i);
      var name := names[i];
      if name !in seen {
        seen := seen[name := 0];
      } else {
        seen := seen[name := seen[name] + 1];
        name := Suffixed(name, seen[name]);
      }
      names[i] := name;
      assert names[..i + 1] == names[..i] + [name];
    }
    assert original[..names.Length] == original && names[..names.Length] == names[..];
    r := names;
  }
}
