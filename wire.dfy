/** Values exchanged with the matrix switch's JSON-over-HTTP endpoint `/cgi-bin/instr`,
    the parts of Python's semantics that the client code relies on (truthiness,
    `dict.get`, `== 1`, `int(...)`, subscripting), and the instruction dictionaries
    that both copies of the client build. */
module Wire {

  datatype Option<+T> = None | Some(value: T) {
    function GetOr(default: T): T {
      match this
      case Some(v) => v
      case None => default
    }
  }

  /** Outcome of a piece of Python code that either returns a value or raises. */
  datatype Eval<+T> = Returns(value: T) | Raises

  /** A decoded JSON value. JSON numbers with a fraction are `VReal`. */
  datatype Value =
    | VNull
    | VBool(b: bool)
    | VInt(i: int)
    | VReal(r: real)
    | VStr(s: string)
    | VList(items: seq<Value>)
    | VObject(fields: map<string, Value>)

  /** A JSON object: the request dictionaries and the device's replies. */
  type Dict = map<string, Value>
  type Instruction = Dict
  type Response = Dict

  /** Python's `bool(v)`. */
  predicate Truthy(v: Value) {
    match v
    case VNull => false
    case VBool(b) => b
    case VInt(i) => i != 0
    case VReal(r) => r != 0.0
    case VStr(s) => s != ""
    case VList(xs) => xs != []
    case VObject(m) => m != map[]
  }

  /** `if response:` on an `Optional[dict]`: present and not the empty dict. */
  predicate TruthyReply(reply: Option<Response>) {
    reply.Some? && reply.value != map[]
  }

  /** Python's `d.get(key)`: a missing key reads as `None`. */
  function Get(d: Dict, key: string): (v: Value)
    ensures key !in d ==> v == VNull
    ensures key in d ==> v == d[key]
  {
    if key in d then d[key] else VNull
  }

  /** Python's `v == 1`, which holds for `1`, `True` and `1.0` alike. */
  predicate EqualsOne(v: Value) {
    v == VInt(1) || v == VBool(true) || v == VReal(1.0)
  }

  function DigitValue(c: char): (d: nat)
    requires '0' <= c <= '9'
    ensures d < 10
  {
    (c as int - '0' as int) as nat
  }

  predicate AllDigits(s: string) {
    forall j :: 0 <= j < |s| ==> '0' <= s[j] <= '9'
  }

  /** Decimal value of a string of ASCII digits. */
  function DigitsValue(s: string): nat
    requires AllDigits(s)
  {
    if s == [] then 0 else 10 * DigitsValue(s[..|s| - 1]) + DigitValue(s[|s| - 1])
  }

  /** Python's `int(s)` for a string: an optional sign followed by at least one digit. */
  function ParseInt(s: string): (r: Eval<int>)
    ensures r.Returns? ==> s != []
  {
    if s != [] && (s[0] == '-' || s[0] == '+') then
      var ds := s[1..];
      if ds != [] && AllDigits(ds) then
        Returns(if s[0] == '-' then -(DigitsValue(ds) as int) else DigitsValue(ds))
      else Raises
    else if s != [] && AllDigits(s) then Returns(DigitsValue(s))
    else Raises
  }

  /** Python's `int(v)`: booleans become 0/1, floats are truncated toward zero,
      `None`, lists and dicts raise `TypeError`. */
  function IntOf(v: Value): Eval<int> {
    match v
    case VInt(i) => Returns(i)
    case VBool(b) => Returns(if b then 1 else 0)
    case VReal(r) => Returns(if r >= 0.0 then r.Floor else -((-r).Floor))
    case VStr(s) => ParseInt(s)
    case _ => Raises
  }

  /** Python's `v[i]` for an integer `i`: lists and strings accept negative
      indices counted from the end; everything else raises (a dict decoded from
      JSON has only string keys, so an integer key is never found). */
  function Index(v: Value, i: int): (r: Eval<Value>)
    ensures v.VList? && 0 <= i < |v.items| ==> r == Returns(v.items[i])
    ensures v.VList? && -|v.items| <= i < 0 ==> r == Returns(v.items[|v.items| + i])
    ensures r.Returns? ==> v.VList? || v.VStr?
  {
    match v
    case VList(xs) =>
      if 0 <= i < |xs| then Returns(xs[i])
      else if -|xs| <= i < 0 then Returns(xs[|xs| + i])
      else Raises
    case VStr(s) =>
      if 0 <= i < |s| then Returns(VStr([s[i]]))
      else if -|s| <= i < 0 then Returns(VStr([s[|s| + i]]))
      else Raises
    case _ => Raises
  }

  /** The field value as a list of names, when it is a JSON list of strings. */
  function NameList(v: Value): (r: Option<seq<string>>)
    ensures r.Some? <==> v.VList? && forall j :: 0 <= j < |v.items| ==> v.items[j].VStr?
    ensures r.Some? ==> |r.value| == |v.items| &&
                        forall j :: 0 <= j < |r.value| ==> v.items[j] == VStr(r.value[j])
  {
    match v
    case VList(xs) =>
      if forall j :: 0 <= j < |xs| ==> xs[j].VStr? then
        Some(seq(|xs|, j requires 0 <= j < |xs| => xs[j].s))
      else None
    case _ => None
  }

  // ----------------- Instructions -----------------

  /** Every instruction carries `"language": 0`. */
  const Language: int := 0

  const GetStatusCommand: string := "get status"
  const GetVideoStatusCommand: string := "get videostatus"
  const GetInputStatusCommand: string := "get input status"
  const GetOutputStatusCommand: string := "get output status"
  const SetPowerCommand: string := "set poweronoff"
  const VideoSwitchCommand: string := "video switch"

  /** A query instruction: only the command identifier and the language. */
  function Command(comhead: string): Instruction {
    map["comhead" := VStr(comhead), "language" := VInt(Language)]
  }

  /** `set poweronoff` with `power` 1 (on) or 0 (off). */
  function SetPower(powerState: int): Instruction {
    Command(SetPowerCommand)["power" := VInt(powerState)]
  }

  /** `video switch` routing source `sourceNum` to output `deviceNum`. */
  function VideoSwitch(deviceNum: int, sourceNum: int): Instruction {
    Command(VideoSwitchCommand)["source" := VList([VInt(sourceNum), VInt(deviceNum)])]
  }

  /** What an instruction asks the device to do, read as the device reads the
      wire format: `source` is `[source index, device index]`. */
  datatype Request =
    | Query(comhead: string)
    | Power(powerState: int)
    | Route(deviceNum: int, sourceNum: int)

  function Decode(instr: Instruction): Option<Request> {
    if Get(instr, "language") != VInt(Language) then None
    else
      match Get(instr, "comhead")
      case VStr(c) =>
        if c == SetPowerCommand then
          (match Get(instr, "power")
           case VInt(p) => if instr.Keys == {"comhead", "language", "power"} then Some(Power(p)) else None
           case _ => None)
        else if c == VideoSwitchCommand then
          (match Get(instr, "source")
           case VList(xs) =>
             if |xs| == 2 && xs[0].VInt? && xs[1].VInt? && instr.Keys == {"comhead", "language", "source"}
             then Some(Route(xs[1].i, xs[0].i)) else None
           case _ => None)
        else if instr.Keys == {"comhead", "language"} then Some(Query(c))
        else None
      case _ => None
  }

  /** Each builder produces exactly the request it is named for; in particular
      `VideoSwitch` puts the source first and the device second. */
  lemma DecodeBuilders(comhead: string, powerState: int, deviceNum: int, sourceNum: int)
    requires comhead != SetPowerCommand && comhead != VideoSwitchCommand
    ensures Decode(Command(comhead)) == Some(Query(comhead))
    ensures Decode(SetPower(powerState)) == Some(Power(powerState))
    ensures Decode(VideoSwitch(deviceNum, sourceNum)) == Some(Route(deviceNum, sourceNum))
    ensures VideoSwitch(deviceNum, sourceNum)["source"] == VList([VInt(sourceNum), VInt(deviceNum)])
  {
    assert Command(comhead).Keys == {"comhead", "language"};
    assert SetPower(powerState).Keys == {"comhead", "language", "power"};
    assert VideoSwitch(deviceNum, sourceNum).Keys == {"comhead", "language", "source"};
  }

  /** Swapping the arguments of `VideoSwitch` changes the instruction unless
      they are equal: the order is observable on the wire. */
  lemma VideoSwitchArgumentOrder(deviceNum: int, sourceNum: int)
    ensures VideoSwitch(deviceNum, sourceNum) == VideoSwitch(sourceNum, deviceNum) <==> deviceNum == sourceNum
  {
    if VideoSwitch(deviceNum, sourceNum) == VideoSwitch(sourceNum, deviceNum) {
      assert VideoSwitch(deviceNum, sourceNum)["source"] == VideoSwitch(sourceNum, deviceNum)["source"];
    }
  }

  // ----------------- Transport -----------------

  /** The body of a 200 reply after `json.loads`: a JSON object, or a body that
      does not decode to one. */
  datatype Body = Unparseable | Parsed(json: Response)

  /** What one `urlopen` call does: raise (connection errors, timeouts and the
      HTTP error statuses urllib raises for), or deliver a reply. */
  datatype Outcome = Raised | Reply(status: int, body: Body)

  /** Default of the `attempts` parameters of both `send_instr` copies. */
  const DefaultAttempts: int := 3
  /** The `time.sleep(1)` after an attempt that raised. */
  const RetryDelay: nat := 1

  /** A finished exchange: what was returned, how many transport calls were made,
      and the sleeps in the order they happened. */
  datatype Run = Run(result: Option<Response>, calls: nat, delays: seq<nat>)

  /** One instruction sent by a helper: what it posted, what the helper
      returned, the transport calls made and the sleeps, in order. */
  datatype Exchange = Exchange(posted: Instruction, result: Option<Response>, calls: nat, delays: seq<nat>)

  /** The attempt raises inside the `try` of the retry loop: a transport error,
      or a 200 whose body `json.loads` rejects. */
  predicate Raising(o: Outcome) {
    o.Raised? || (o.Reply? && o.status == 200 && o.body.Unparseable?)
  }

  /** Number of raising outcomes among `t(lo)`, ..., `t(hi - 1)`. */
  function RaisingCount(t: nat -> Outcome, lo: nat, hi: nat): nat
    decreases hi - lo
  {
    if lo >= hi then 0 else (if Raising(t(lo)) then 1 else 0) + RaisingCount(t, lo + 1, hi)
  }

  /** Python's `xs.index(x)` (the first position), or `None` where it raises. */
  function IndexOf(xs: seq<string>, x: string): (r: Option<nat>)
    ensures r.None? <==> x !in xs
    ensures r.Some? ==> r.value < |xs| && xs[r.value] == x && forall j :: 0 <= j < r.value ==> xs[j] != x
  {
    if xs == [] then None
    else if xs[0] == x then Some(0)
    else match IndexOf(xs[1..], x)
      case None => None
      case Some(k) => Some(k + 1)
  }

  /** The calls an entity makes on its controller or helper functions, in order. */
  datatype Call =
    | GetSources
    | GetDevices
    | GetOutputStatus
    | GetInputStatus
    | QueryPower
    | PowerOn
    | PowerOff
    | SetSource(deviceNum: int, sourceNum: int)
}
