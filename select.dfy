/** `HDMIMatrixSelect` (custom_components/nohassle_hdmi_matrix/hdm_matrix_select.py):
    one select entity per output, built on the controller.

    The entity's controller calls are parameters holding what each call
    returned, and every method returns the calls it made, in order. A field that
    Python sets to `None` holds `VNull` (for `current_option`, which can hold any
    JSON value read from the device) or `None`. */
module Select {
  import opened Wire

  /** `allsource[d] - 1`: Python subtracts from integers, booleans and floats;
      any other value raises at once. Only an integer difference can index the
      `inname` list: a float difference raises later, at the subscript, after
      the input status has been fetched. */
  function SlotIndex(v: Value): (r: Eval<Value>)
    ensures v.VInt? ==> r == Returns(VInt(v.i - 1))
    ensures v.VReal? ==> r == Returns(VReal(v.r - 1.0))
    ensures r.Returns? <==> v.VInt? || v.VBool? || v.VReal?
    ensures r.Returns? ==> (r.value.VInt? <==> !v.VReal?)
  {
    match v
    case VInt(i) => Returns(VInt(i - 1))
    case VBool(b) => Returns(VInt((if b then 1 else 0) - 1))
    case VReal(x) => Returns(VReal(x - 1.0))
    case _ => Raises
  }

  /** The outcome of the two-hop lookup: the option found (`VNull` when it is
      unknown) and whether the input status was fetched. */
  datatype Resolution = Resolution(option: Value, readInput: bool)

  /** `current_option` as `__init__` and `update` compute it for output `d`:
      the output status gives the 1-based slot `allsource[d]`, then the input
      status gives `inname[slot - 1]`. Any falsy status, missing key, non-list
      field, float slot or index out of range makes it unknown; the input
      status is fetched once `allsource[d] - 1` has been computed, even when
      that difference cannot index. A slot of 0 gives index -1, which Python
      reads as the last entry. */
  function ResolveCurrent(outputStatus: Option<Response>, inputStatus: Option<Response>, d: nat): (r: Resolution)
    ensures r.readInput ==> TruthyReply(outputStatus)
    ensures !TruthyReply(outputStatus) || !TruthyReply(inputStatus) ==> r.option == VNull
  {
    if !TruthyReply(outputStatus) then Resolution(VNull, false)
    else
      match Index(Get(outputStatus.value, "allsource"), d)
      case Raises => Resolution(VNull, false)
      case Returns(slotValue) =>
        match SlotIndex(slotValue)
        case Raises => Resolution(VNull, false)
        case Returns(slot) =>
          if !TruthyReply(inputStatus) || !slot.VInt? then Resolution(VNull, true)
          else
            match Index(Get(inputStatus.value, "inname"), slot.i)
            case Raises => Resolution(VNull, true)
            case Returns(option) => Resolution(option, true)
  }

  /** With well-formed replies and a slot `n` with `1 <= n <= |inname|`, the
      current option is `inname[n - 1]`, read after the output status. */
  lemma ResolveTwoHop(outputStatus: Response, inputStatus: Response, d: nat, n: int)
    requires "allsource" in outputStatus && outputStatus["allsource"].VList?
    requires d < |outputStatus["allsource"].items| && outputStatus["allsource"].items[d] == VInt(n)
    requires "inname" in inputStatus && inputStatus["inname"].VList?
    requires 1 <= n <= |inputStatus["inname"].items|
    ensures ResolveCurrent(Some(outputStatus), Some(inputStatus), d)
            == Resolution(inputStatus["inname"].items[n - 1], true)
  {
    assert outputStatus != map[] && inputStatus != map[];
  }

  /** A slot of 0 is not rejected: it selects the last `inname` entry. */
  lemma ResolveSlotZero(outputStatus: Response, inputStatus: Response, d: nat)
    requires "allsource" in outputStatus && outputStatus["allsource"].VList?
    requires d < |outputStatus["allsource"].items| && outputStatus["allsource"].items[d] == VInt(0)
    requires "inname" in inputStatus && inputStatus["inname"].VList? && inputStatus["inname"].items != []
    ensures var xs := inputStatus["inname"].items;
            ResolveCurrent(Some(outputStatus), Some(inputStatus), d) == Resolution(xs[|xs| - 1], true)
  {
    assert outputStatus != map[] && inputStatus != map[];
  }

  /** A slot past the end of `inname` (or more than one below its start) gives
      an unknown option rather than a fallback. */
  lemma ResolveOutOfRange(outputStatus: Response, inputStatus: Response, d: nat, n: int)
    requires "allsource" in outputStatus && outputStatus["allsource"].VList?
    requires d < |outputStatus["allsource"].items| && outputStatus["allsource"].items[d] == VInt(n)
    requires "inname" in inputStatus && inputStatus["inname"].VList?
    requires n > |inputStatus["inname"].items| || n - 1 < -|inputStatus["inname"].items|
    ensures ResolveCurrent(Some(outputStatus), Some(inputStatus), d).option == VNull
  {
    assert outputStatus != map[] && inputStatus != map[];
  }

  /** A device the output status does not list (or a reply without
      `allsource`) is unknown, and the input status is then not fetched. */
  lemma ResolveNoSlot(outputStatus: Response, inputStatus: Option<Response>, d: nat)
    requires "allsource" !in outputStatus ||
             (outputStatus["allsource"].VList? && d >= |outputStatus["allsource"].items|)
    ensures ResolveCurrent(Some(outputStatus), inputStatus, d) == Resolution(VNull, false)
  {
  }

  /** A float slot does not stop the lookup before the input status is fetched:
      the subtraction succeeds, the subscript of `inname` raises, and the option
      is unknown. */
  lemma ResolveFloatSlot(outputStatus: Response, inputStatus: Option<Response>, d: nat, x: real)
    requires "allsource" in outputStatus && outputStatus["allsource"].VList?
    requires d < |outputStatus["allsource"].items| && outputStatus["allsource"].items[d] == VReal(x)
    ensures ResolveCurrent(Some(outputStatus), inputStatus, d) == Resolution(VNull, true)
  {
    assert outputStatus != map[];
  }

  /** Two outputs, both routed as 1-based slots `[1, 2]` to the sources
      "Blu-ray" and "Apple TV". */
  lemma ResolveExample()
    ensures var output := map["comhead" := VStr(GetOutputStatusCommand),
                               "allsource" := VList([VInt(1), VInt(2)])];
            var input := map["comhead" := VStr(GetInputStatusCommand),
                              "inname" := VList([VStr("Blu-ray"), VStr("Apple TV")])];
            && ResolveCurrent(Some(output), Some(input), 0).option == VStr("Blu-ray")
            && ResolveCurrent(Some(output), Some(input), 1).option == VStr("Apple TV")
  {
    var output := map["comhead" := VStr(GetOutputStatusCommand),
                      "allsource" := VList([VInt(1), VInt(2)])];
    var input := map["comhead" := VStr(GetInputStatusCommand),
                     "inname" := VList([VStr("Blu-ray"), VStr("Apple TV")])];
    ResolveTwoHop(output, input, 0, 1);
    ResolveTwoHop(output, input, 1, 2);
  }

  /** `get_devices()[n]`, `None` where it raises. */
  function DeviceNameAt(devices: Option<seq<string>>, n: nat): (r: Option<string>)
    ensures r.Some? <==> devices.Some? && n < |devices.value|
    ensures r.Some? ==> r.value == devices.value[n]
  {
    if devices.Some? && n < |devices.value| then Some(devices.value[n]) else None
  }

  /** The calls the lookup of `current_option` makes. */
  function ResolutionCalls(r: Resolution): seq<Call> {
    [GetOutputStatus] + (if r.readInput then [GetInputStatus] else [])
  }

  class HDMIMatrixSelect {
    const deviceNumber: nat
    var options: Option<seq<string>>
    var deviceName: Option<string>
    var currentOption: Value

    constructor (deviceNumber: nat, options: Option<seq<string>>, deviceName: Option<string>, currentOption: Value)
      ensures this.deviceNumber == deviceNumber && this.options == options
      ensures this.deviceName == deviceName && this.currentOption == currentOption
    {
      this.deviceNumber := deviceNumber;
      this.options := options;
      this.deviceName := deviceName;
      this.currentOption := currentOption;
    }

    /** `__init__(hdmi_host, device_num, controller)` given what `get_sources()`,
        `get_devices()`, `get_output_status()` and `get_input_status()` returned;
        `null` where `get_devices()[device_num]` raises. */
    static method Create(deviceNum: nat, sources: Option<seq<string>>, devices: Option<seq<string>>,
                         outputStatus: Option<Response>, inputStatus: Option<Response>)
      returns (entity: HDMIMatrixSelect?, calls: seq<Call>)
      ensures entity != null <==> DeviceNameAt(devices, deviceNum).Some?
      ensures entity != null ==>
                && fresh(entity)
                && entity.deviceNumber == deviceNum && entity.options == sources
                && entity.deviceName == DeviceNameAt(devices, deviceNum)
                && entity.currentOption == ResolveCurrent(outputStatus, inputStatus, deviceNum).option
                && calls == [GetSources, GetDevices] + ResolutionCalls(ResolveCurrent(outputStatus, inputStatus, deviceNum))
      ensures entity == null ==> calls == [GetSources, GetDevices]
    {
      calls := [GetSources, GetDevices];
      var name := DeviceNameAt(devices, deviceNum);
      if name.None? {
        return null, calls;
      }
      var resolved := ResolveCurrent(outputStatus, inputStatus, deviceNum);
      calls := calls + ResolutionCalls(resolved);
      entity := new HDMIMatrixSelect(deviceNum, sources, name, resolved.option);
    }

    /** `update()`: refresh the options, the device name and the current option. */
    method Update(sources: Option<seq<string>>, devices: Option<seq<string>>,
                  outputStatus: Option<Response>, inputStatus: Option<Response>)
      returns (calls: seq<Call>)
      modifies this
      ensures options == sources
      ensures deviceName == DeviceNameAt(devices, deviceNumber)
      ensures currentOption == ResolveCurrent(outputStatus, inputStatus, deviceNumber).option
      ensures calls == [GetSources, GetDevices] + ResolutionCalls(ResolveCurrent(outputStatus, inputStatus, deviceNumber))
    {
      options := sources;
      deviceName := DeviceNameAt(devices, deviceNumber);
      var resolved := ResolveCurrent(outputStatus, inputStatus, deviceNumber);
      currentOption := resolved.option;
      calls := [GetSources, GetDevices] + ResolutionCalls(resolved);
    }

    /** The `options` property: the stored list, or `[]` when there is none. */
    function Options(): (r: seq<string>)
      reads this
      ensures options.None? ==> r == []
      ensures options.Some? ==> r == options.value
    {
      options.GetOr([])
    }

    /** `select_option(option)` given what `are_devices_powered_on()` did. An
        option not in the list raises before any call; the option at index 0 is
        rejected without a call. Otherwise, unless the matrix reports being on,
        it is powered on first and off again afterwards; the switch is sent with
        1-based numbers. */
    method SelectOption(option: string, powered: Eval<Option<bool>>) returns (raised: bool, calls: seq<Call>)
      modifies this
      ensures options == old(options) && deviceName == old(deviceName)
      ensures var index := IndexOf(old(Options()), option);
        && (raised <==> index.None? || (index.value != 0 && powered.Raises?))
        && (index.None? || index.value == 0 ==> calls == [] && currentOption == old(currentOption))
        && (index.Some? && index.value != 0 && powered.Raises? ==>
              calls == [QueryPower] && currentOption == old(currentOption))
        && (index.Some? && index.value != 0 && powered == Returns(Some(true)) ==>
              calls == [QueryPower, SetSource(deviceNumber + 1, index.value + 1)] &&
              currentOption == VStr(option))
        && (index.Some? && index.value != 0 && powered.Returns? && powered.value != Some(true) ==>
              calls == [QueryPower, PowerOn, SetSource(deviceNumber + 1, index.value + 1), PowerOff] &&
              currentOption == VStr(option))
    {
      calls := [];
      var optionNum := IndexOf(Options(), option);
      if optionNum.None? {
        return true, calls;
      }
      if optionNum.value == 0 {
        return false, calls;
      }
      calls := calls + [QueryPower];
      if powered.Raises? {
        return true, calls;
      }
      raised := false;
      var powerOff := false;
      if powered.value != Some(true) {
        calls := calls + [PowerOn];
        powerOff := true;
      }
      calls := calls + [SetSource(deviceNumber + 1, optionNum.value + 1)];
      currentOption := VStr(option);
      if powerOff {
        calls := calls + [PowerOff];
      }
    }
  }
}
