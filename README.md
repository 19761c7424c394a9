# No Hassle HDMI matrix: a Dafny model of the client core

This project models the client side of the No Hassle HDMI matrix integration
for Home Assistant. The matrix switch is driven by JSON instructions posted to
`http://<host>/cgi-bin/instr`. An instruction is a dictionary with a `comhead`
command name, `"language": 0` and, for some commands, a parameter. The
integration has two copies of the client:

- `NoHassleHDMOMatrixController`, in `nohassle_hdmi_matrix.py`, used by the
  select entities. It is module `Controller`.
- the static helpers of the media player `HDMIMatrixZone`, in
  `media_player.py`. They are module `Zone`, together with the zone entity's
  state updates.

The select entity `HDMIMatrixSelect`, in `hdm_matrix_select.py`, is module
`Select`. Module `Wire` holds the JSON values and the instruction builders. It
also holds the parts of Python's semantics the code relies on: truthiness,
`dict.get`, `== 1`, `int(...)`, subscripting and `list.index`. Module `Names`
holds the duplicate-name renaming that both copies share. Module `Copies`
compares the two clients.

How the environment is modelled:

- **Transport.** One `send_instr` is a function `t: nat -> Outcome`, where
  `t(k)` is what the k-th `urlopen` call does. It either raises, or delivers a
  status and a body that parses to a JSON object or does not. urllib raises
  for HTTP error statuses, so those are `Raised`. Each helper that posts an
  instruction returns an `Exchange`: the instruction it posted, what it
  returned, how many calls were made, and the sleeps.
- **Time.** Each `time.sleep(n)` is an entry `n` in a returned delay log.
- **Entities.** The entities' calls to their helpers are parameters holding
  what each call returned. Every entity method returns the calls it made, in
  order.
- **Undefined getters.** The controller calls `get_status`,
  `get_input_status` and `get_output_status` but does not define them. Their
  replies are parameters of type `Eval<Option<Response>>`. `Raises` is the
  `AttributeError` the code as written raises. `Returns(r)` is the reply of
  the evidently intended `_send_command("<comhead>")`. See "## Findings".

What is proved:

- Each retry loop, written as a `while`/`for` method, equals a recursive
  specification function.
- For both retry loops: the first good reply wins; there are at most
  `attempts` calls; each sleep is one second after a raising attempt; an
  unreachable device costs `attempts` calls and sleeps.
- Every helper that posts an instruction states which one, in both copies.
  `set_device_source` posts `source = [source_num, device_num]`, which decodes
  as a route of that source to that output. The power commands post `power`
  1 and 0. Both copies post the same instructions.
- Deduplication keeps its length and the first occurrence of each name. The
  k-th repeat of a name becomes `name_k`. Distinct lists are unchanged. The
  renaming can still produce the same name twice.
- Power checks: the controller's and the media player's agree on integers but
  can disagree on other values, e.g. the string `"1"` and the float `1.5`.
- Select entity: how the current option is resolved over two replies,
  including the slot-0 wrap-around. How `select_option` powers the matrix on
  and off around the switch.

Where the code and the integration's documented behaviour differ, the model
follows the code:

- The controller reads source names from `inname`. The media player copy reads
  them from `name`.
- The media player's `send_instr` does not check `comhead`. Its
  `get_status` / `get_videostatus` helpers do not check it either; only its
  input and output status helpers do.
- An attempt that gets a non-200 reply which does not raise, or a mismatched
  `comhead`, is retried without sleeping.
- The controller sleeps 2 after a power command only when the device answered.
  The media player sleeps 5 after power-on whatever the answer, and does not
  sleep after power-off.
- The media player's `select_source` sends the 0-based device number and
  0-based source index. The select entity sends both 1-based. Each is modelled
  as written.

## Model

| member | source | states |
|---|---|---|
| Wire.DecodeBuilders | custom_components/nohassle_hdmi_matrix/nohassle_hdmi_matrix.py:72-75 | a query instruction, a `set poweronoff` with `power` and a `video switch` each decode to the request they name, with `source` holding `[source, device]` |
| Wire.VideoSwitchArgumentOrder | custom_components/nohassle_hdmi_matrix/media_player.py:512-516 | swapping device and source changes the `video switch` instruction exactly when they differ |
| Names.SeenCounts | custom_components/nohassle_hdmi_matrix/nohassle_hdmi_matrix.py:245-251 | after a prefix the `seen` map holds exactly the names met, each with its number of occurrences minus one |
| Names.DedupLength | custom_components/nohassle_hdmi_matrix/nohassle_hdmi_matrix.py:246-253 | renaming keeps the list's length |
| Names.DedupAt | custom_components/nohassle_hdmi_matrix/nohassle_hdmi_matrix.py:246-252 | the first occurrence of a name is kept; its k-th repeat becomes `name_k`, k counting earlier occurrences |
| Names.DedupDistinct | custom_components/nohassle_hdmi_matrix/media_player.py:485-493 | a list without duplicates comes back unchanged |
| Names.DedupExample | custom_components/nohassle_hdmi_matrix/media_player.py:485-493 | `["A","B","A","A"]` becomes `["A","B","A_1","A_2"]` |
| Names.DedupCanCollide | custom_components/nohassle_hdmi_matrix/media_player.py:487-492 | `["A","A","A_1"]` becomes `["A","A_1","A_1"]`: the result can still repeat a name |
| Controller.SendInstr | custom_components/nohassle_hdmi_matrix/nohassle_hdmi_matrix.py:46-59 | the retry loop returns the reply, call count and sleeps of the attempt-by-attempt specification |
| Controller.SendCalls | custom_components/nohassle_hdmi_matrix/nohassle_hdmi_matrix.py:46-59 | at most `attempts` calls; all of them when no reply is returned; none when `attempts <= 0`; at least one when a reply is returned |
| Controller.SendFirstGood | custom_components/nohassle_hdmi_matrix/nohassle_hdmi_matrix.py:48-53 | a returned reply is the body of the last call, a 200 whose `comhead` matches, and no earlier call was such a reply; `None` means no attempt was |
| Controller.SendSleeps | custom_components/nohassle_hdmi_matrix/nohassle_hdmi_matrix.py:54-56 | every sleep is 1 second and there is one per raising attempt among the calls made |
| Controller.SendUnreachable | custom_components/nohassle_hdmi_matrix/nohassle_hdmi_matrix.py:46-59 | when every call raises: no reply, `attempts` calls, a 1-second sleep after each |
| Controller.LogResponse | custom_components/nohassle_hdmi_matrix/nohassle_hdmi_matrix.py:91-97 | a truthy reply is passed on, with one sleep of `delay` when the delay is non-zero; anything else gives `None` and no sleep |
| Controller.LogResponseRunResult | custom_components/nohassle_hdmi_matrix/nohassle_hdmi_matrix.py:90-97 | for an instruction with a `comhead`, `_log_response` returns what `_send_instr` returned, makes the same calls, and adds the delay only after a response |
| Controller.SendCommand | custom_components/nohassle_hdmi_matrix/nohassle_hdmi_matrix.py:61-76 | posts the query `{comhead: command, language: 0}`; returns what `_send_instr` returned, with its calls and sleeps; a response echoes the command; at most 3 calls |
| Controller.SetDeviceSource | custom_components/nohassle_hdmi_matrix/nohassle_hdmi_matrix.py:173-190 | posts a `video switch` with `source = [source_num, device_num]`, decoding as a route of `source_num` to `device_num`; returns what `_send_instr` returned, with its calls and sleeps; a response echoes `video switch`; at most 3 calls |
| Controller.PerformPowerCommand | custom_components/nohassle_hdmi_matrix/nohassle_hdmi_matrix.py:214-227 | posts `set poweronoff` with `power = power_state`; returns nothing; the calls are `_send_instr`'s and the sleeps its retry sleeps plus 2 exactly when the device answered |
| Controller.PowerOnDevices | custom_components/nohassle_hdmi_matrix/nohassle_hdmi_matrix.py:194-196 | posts `set poweronoff` with `power` 1; returns nothing; retry sleeps plus 2 exactly when the device answered |
| Controller.PowerOffDevices | custom_components/nohassle_hdmi_matrix/nohassle_hdmi_matrix.py:198-200 | posts `set poweronoff` with `power` 0; returns nothing; retry sleeps plus 2 exactly when the device answered |
| Controller.ArePoweredOn | custom_components/nohassle_hdmi_matrix/nohassle_hdmi_matrix.py:202-212 | raises exactly when the status getter raises; unknown exactly when the status is missing, empty or without `power`; on exactly when `power == 1` in Python's sense |
| Controller.FetchNames | custom_components/nohassle_hdmi_matrix/nohassle_hdmi_matrix.py:111-130 | the retry loop returns the names, getter calls and sleeps of the attempt-by-attempt specification |
| Controller.GetDevices | custom_components/nohassle_hdmi_matrix/nohassle_hdmi_matrix.py:101-130 | the retry loop on the output status's `name` field |
| Controller.GetSources | custom_components/nohassle_hdmi_matrix/nohassle_hdmi_matrix.py:142-171 | the retry loop on the input status's `inname` field |
| Controller.NamesFirstUsable | custom_components/nohassle_hdmi_matrix/nohassle_hdmi_matrix.py:111-123 | a returned list is the deduplicated, non-empty field of the first usable reply; `None` means no reply was usable and all `attempts` calls were made |
| Controller.GetDeviceCount | custom_components/nohassle_hdmi_matrix/nohassle_hdmi_matrix.py:132-140 | the count is 0 exactly when no device list was fetched, else its length |
| Controller.NamesWithoutGetter | custom_components/nohassle_hdmi_matrix/nohassle_hdmi_matrix.py:113 | when the getter raises every time: `None`, `attempts` calls, a 1-second sleep after each |
| Controller.DeduplicateNames | custom_components/nohassle_hdmi_matrix/nohassle_hdmi_matrix.py:232-253 | `None` or an empty list gives a new empty list; any other list is renamed in place and returned |
| Zone.SendInstr | custom_components/nohassle_hdmi_matrix/media_player.py:194-230 | the retry loop returns the reply, call count and sleeps of the attempt-by-attempt specification |
| Zone.SendFirstGood | custom_components/nohassle_hdmi_matrix/media_player.py:218-222 | a returned reply is the parsed body of the last call, a 200, and no earlier call was one; `None` means no attempt was |
| Zone.SendSleeps | custom_components/nohassle_hdmi_matrix/media_player.py:224-226 | every sleep is 1 second, one per raising attempt among the calls made |
| Zone.Answered | custom_components/nohassle_hdmi_matrix/media_player.py:233-282 | `get_status` / `get_videostatus` pass a reply on exactly when it is truthy |
| Zone.Echoed | custom_components/nohassle_hdmi_matrix/media_player.py:285-334 | `get_input_status` / `get_output_status` pass a reply on exactly when it is truthy and echoes the command |
| Zone.EchoedRefinesAnswered | custom_components/nohassle_hdmi_matrix/media_player.py:303-334 | whatever the echo check accepts the plain check accepts too; a truthy reply with another `comhead` is accepted only by the plain check |
| Zone.GetNames | custom_components/nohassle_hdmi_matrix/media_player.py:337-380 | `None` exactly when the status or its `name` field is missing or falsy; the deduplicated list, of the field's length, when the field is a list of names; raises otherwise |
| Zone.PoweredOn | custom_components/nohassle_hdmi_matrix/media_player.py:440-469 | unknown exactly when there is no status or no `power`; raises exactly when `int(power)` raises; on exactly when `int(power) == 1` |
| Zone.GetStatus | custom_components/nohassle_hdmi_matrix/media_player.py:233-256 | posts the `get status` query; passes the reply on exactly when it is truthy; `send_instr`'s calls and sleeps |
| Zone.GetVideoStatus | custom_components/nohassle_hdmi_matrix/media_player.py:259-282 | posts the `get videostatus` query; passes the reply on exactly when it is truthy; `send_instr`'s calls and sleeps |
| Zone.GetInputStatus | custom_components/nohassle_hdmi_matrix/media_player.py:285-308 | posts the `get input status` query; passes the reply on exactly when it is truthy and echoes that command; `send_instr`'s calls and sleeps |
| Zone.GetOutputStatus | custom_components/nohassle_hdmi_matrix/media_player.py:311-334 | posts the `get output status` query; passes the reply on exactly when it is truthy and echoes that command; `send_instr`'s calls and sleeps |
| Zone.SetDeviceSource | custom_components/nohassle_hdmi_matrix/media_player.py:496-528 | posts a `video switch` with `source = [source_num, device_num]`, decoding as a route of `source_num` to `device_num`; passes the reply on exactly when it is truthy; `send_instr`'s calls and sleeps |
| Zone.PowerOnDevices | custom_components/nohassle_hdmi_matrix/media_player.py:383-410 | posts `set poweronoff` with `power` 1; returns nothing; `send_instr`'s calls; its retry sleeps, then a final sleep of 5 whatever the answer |
| Zone.PowerOffDevices | custom_components/nohassle_hdmi_matrix/media_player.py:413-437 | posts `set poweronoff` with `power` 0; returns nothing; exactly `send_instr`'s calls and sleeps, all 1-second retry sleeps; at most 3 calls |
| Zone.DeduplicateNames | custom_components/nohassle_hdmi_matrix/media_player.py:472-493 | the list is renamed in place and returned |
| Zone.HDMIMatrixZone.Create | custom_components/nohassle_hdmi_matrix/media_player.py:113-126 | the zone exists exactly when the device list has the entry and no helper raised; it takes that name, the sources, ON exactly when the power check said true, and source "UNKNOWN" |
| Zone.HDMIMatrixZone.SelectSource | custom_components/nohassle_hdmi_matrix/media_player.py:179-191 | raises exactly when no source list was fetched; a source at a non-zero index is sent with that index and recorded; otherwise nothing is sent or changed |
| Zone.HDMIMatrixZone.Update | custom_components/nohassle_hdmi_matrix/media_player.py:128-140 | the state is ON exactly when the power check returned true; the source becomes "Unknown" |
| Select.SlotIndex | custom_components/nohassle_hdmi_matrix/hdm_matrix_select.py:26 | `allsource[d] - 1` succeeds exactly for integers, booleans and floats; the difference is an integer index exactly when the slot is not a float |
| Select.ResolveCurrent | custom_components/nohassle_hdmi_matrix/hdm_matrix_select.py:21-35 | the input status is read only after a truthy output status; a falsy status of either kind gives an unknown option |
| Select.ResolveFloatSlot | custom_components/nohassle_hdmi_matrix/hdm_matrix_select.py:26-35 | a float slot still leads to the input status being fetched, and the option is unknown |
| Select.ResolveTwoHop | custom_components/nohassle_hdmi_matrix/hdm_matrix_select.py:26-32 | with well-formed replies and slot `n` in `1..|inname|`, the current option is `inname[n-1]` |
| Select.ResolveSlotZero | custom_components/nohassle_hdmi_matrix/hdm_matrix_select.py:26-32 | slot 0 selects the last `inname` entry |
| Select.ResolveOutOfRange | custom_components/nohassle_hdmi_matrix/hdm_matrix_select.py:32-35 | a slot outside the readable range gives an unknown option |
| Select.ResolveNoSlot | custom_components/nohassle_hdmi_matrix/hdm_matrix_select.py:26 | a device the output status does not list gives an unknown option, and the input status is not read |
| Select.ResolveExample | custom_components/nohassle_hdmi_matrix/hdm_matrix_select.py:21-32 | slots `[1, 2]` over `["Blu-ray", "Apple TV"]` resolve to those two names |
| Select.DeviceNameAt | custom_components/nohassle_hdmi_matrix/hdm_matrix_select.py:18 | `get_devices()[n]` is defined exactly when the list exists and has an entry `n` |
| Select.HDMIMatrixSelect.Create | custom_components/nohassle_hdmi_matrix/hdm_matrix_select.py:13-35 | the entity exists exactly when the device name can be read; it holds the sources, that name and the resolved current option, after the calls the lookup makes |
| Select.HDMIMatrixSelect.Update | custom_components/nohassle_hdmi_matrix/hdm_matrix_select.py:37-57 | options, device name and current option are refreshed from the replies given |
| Select.HDMIMatrixSelect.Options | custom_components/nohassle_hdmi_matrix/hdm_matrix_select.py:64-67 | the stored list, or `[]` when there is none |
| Select.HDMIMatrixSelect.SelectOption | custom_components/nohassle_hdmi_matrix/hdm_matrix_select.py:74-89 | an unknown option raises before any call; index 0 does nothing; otherwise the switch is sent 1-based, wrapped in power-on/off unless the matrix reports on, and the option recorded; a raising power check stops it |
| Copies.PowerChecksAgreeOnIntegers | custom_components/nohassle_hdmi_matrix/media_player.py:464 | on an integer `power` both power checks give `power == 1` |
| Copies.PowerChecksDiffer | custom_components/nohassle_hdmi_matrix/nohassle_hdmi_matrix.py:212 | `"1"` and `1.5` read as off in the controller and as on in the media player |
| Copies.SendCopiesAgreeOnMatchingReplies | custom_components/nohassle_hdmi_matrix/nohassle_hdmi_matrix.py:49-53 | when every parsed 200 reply echoes the command, both retry loops behave identically |
| Copies.SameInstructions | custom_components/nohassle_hdmi_matrix/media_player.py:512-516 | both copies post the same `video switch` for a route, and the same `set poweronoff` for power-on and for power-off |
| Copies.MismatchedReply | custom_components/nohassle_hdmi_matrix/media_player.py:219-222 | a reply with another `comhead` is returned at once by the media player and skipped without a sleep by the controller |

## Left out

- HTTP and JSON encoding: the URL, headers and `Content-Length` are left out. A reply body is either a JSON object or unparseable.
- A reply body that is valid JSON but not an object counts as unparseable. That is exact for the controller, whose `.get` on it raises.
- Real time: sleeps are entries in a delay log.
- Logging (`_LOGGER`) has no effect on the model.
- Home Assistant plumbing is left out, being framework code: `setup_platform`, the configuration and service schemas, the service handler, `hass.data`, and the entity platform calls.
- `hdmi_matrix_switch.py`, `switch.py` and the logging configuration module are not part of this model.
- Entity properties that return a stored field are read as that field: the zone's `state`, `source` and `source_list`, and the select entity's `name`. `unique_id` (a string built from the host and the device number) and `supported_features` (a constant flag set) are not modelled.
- The media player's `name` and `media_title` properties are not modelled. `name` reads the attribute `_device_id`, which the class never assigns. `media_title` returns "Powered Off" when the zone is off. Otherwise it fails before it reaches `name`, because it calls the string property as `self.source()`. Because `_device_id` is never assigned, the source lookups in `HDMIMatrixZone.__init__` and `update` always fail, so the model sets the source to "UNKNOWN" or "Unknown" directly.
- Zone.SendInstr: a 200 reply whose body is valid JSON but not an object (e.g. `null`) is returned by the media player's `send_instr` after one call with no sleep; the model treats it as unparseable, sleeps 1 and retries. Also, the device's answers do not depend on the instruction posted: the model does not relate a reply to the instruction.
- Controller.FetchNames: a truthy name field that is not a list of strings is treated as a failed attempt with a sleep. That is exact for strings, numbers and dicts: for a dict, the write `names[0] = ...` adds a key while the dict is being iterated, so the next step raises. It is not exact for a list of non-strings, which Python would rename.
- Zone.GetNames: a truthy `name` field that is not a list of strings is modelled as raising. That is exact for strings, numbers and dicts; a dict raises on `names[0]`, since its keys are strings. It is not exact for a list of non-strings, which Python would rename.
- Wire.IntOf: `int()` on a string accepts only an optional sign and ASCII digits. Surrounding whitespace and `_` separators are not modelled.
- JSON floats are exact reals, not IEEE doubles.
- Controller.LogResponse: the delay is a natural number. Callers only pass 0 and 2.
- Controller.DeduplicateNames: the controller renames the list object inside the status reply, so the reply is changed too. The model renames a fresh array with the same contents, and nothing reads the reply afterwards.

## Findings

| source | as written | input that shows it | evidently intended | confidence | as-written member | corrected member |
|---|---|---|---|---|---|---|
| custom_components/nohassle_hdmi_matrix/nohassle_hdmi_matrix.py:113 | `get_devices`, `get_sources` and `are_devices_powered_on` call `self.get_output_status()`, `self.get_input_status()` and `self.get_status()`, which the class does not define. Each call raises `AttributeError`. The retry loops catch it, sleep 1 and finally return `None`. | any device, any `attempts >= 1`: three attempts, three sleeps, no names | the getters are `_send_command("get output status")` and so on, whose replies feed the loop | high; not executed | Controller.NamesWithoutGetter | Controller.NamesFirstUsable |
