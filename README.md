# Feller Zeptrion hub integration, modelled in Dafny

This project models the core of the Home Assistant integration for the Feller
Zeptrion hub ("Zapp"). The hub is a small box on the local network. It
answers XML over HTTP at `/zrap/...` endpoints: channel descriptions
(`chdes`), channel states (`chscan`), commands (`chctrl`), a change
notification (`chnotify`), network info (`net`) and device identity (`id`).

The model covers three parts of the integration:

- **Hub** (`hub.dfy`, with `pytext.dfy`, `xml.dfy`, `dicts.dfy`):
  - the tolerant XML field reader `safe_find_text`;
  - the parsers for channel descriptions, channel states, device info and
    network info;
  - the light-state rule;
  - the command bodies;
  - the hub object. Its network side is the log of requests it has sent.
    The hub's answer to each request is an `HttpOutcome` parameter: a
    status with a parsed body, or a fault.
- **Cover** (`cover.dfy`): the blind entity. The hub cannot report a
  blind's position, so the entity tracks the last movement itself. The
  model is the entity's state machine, the commands it sends, and the
  setup step that makes one entity per category-5 channel.
- **ConfigFlow** (`config_flow.dfy`): the two-step setup wizard. Step one
  asks for the host. Step two shows a form with one name field per
  channel; the field defaults come from the hub.

Python semantics the model relies on are written out:

- `str.strip()` with Python's white-space set.
- `str.replace("ch", "")`.
- `int()` on a string, including Python's limit of 4300 digits. A `None`
  result stands for the ValueError it raises.
- `str()` of an int, and the f-string rendering of `None`.
- Insertion-ordered dicts, including how `{**a, **b}` merges.
- How a dict assignment behaves when a voluptuous `Required` marker equal
  to the new key is already present: the first marker, and its default,
  stay.

Request order of the light commands: `turn_light_on` / `turn_light_off`
create the notify coroutine before the command but only await it after it,
so the POST to `/zrap/chctrl` goes out before the GET to `/zrap/chnotify`
(`Hub.ZeptrionHub.TurnLightOn`).

## Model

| member | source | states |
|---|---|---|
| PyText.StripLeft | custom_components/fellerzeptrion/hub.py:186 | the result is the suffix left after a run of white space, and it does not start with white space |
| PyText.StripRight | custom_components/fellerzeptrion/hub.py:186 | the result is the prefix left before a run of white space, and it does not end with white space |
| PyText.Strip | custom_components/fellerzeptrion/hub.py:186 | the stripped text is no longer than the input, neither starts nor ends with white space, and is empty when the input is all white space |
| PyText.StripLeftIs | custom_components/fellerzeptrion/hub.py:186 | lstrip removes exactly the leading white space up to the first other character |
| PyText.StripRightIs | custom_components/fellerzeptrion/hub.py:186 | rstrip of a suffix removes exactly the trailing white space after the last other character |
| PyText.StripIsCore | custom_components/fellerzeptrion/hub.py:186 | strip gives exactly the part between the leading and the trailing white space |
| PyText.StripIdempotent | custom_components/fellerzeptrion/hub.py:186 | stripping twice equals stripping once |
| PyText.StripUnpadded | custom_components/fellerzeptrion/hub.py:186 | text that neither starts nor ends with white space strips to itself |
| PyText.ParseInt | custom_components/fellerzeptrion/hub.py:85 | int() succeeds only on text whose stripped form ends in a digit, and a negative result needs a leading "-"; ParseFormatInt, ParseIntTooManyDigits and the examples below pin down the rest |
| PyText.RemoveCh | custom_components/fellerzeptrion/hub.py:161 | removing "ch" never lengthens the tag |
| PyText.RemoveChNoOccurrence | custom_components/fellerzeptrion/hub.py:161 | a string that contains no "ch" is left unchanged |
| PyText.TagToId | custom_components/fellerzeptrion/hub.py:161 | the id of the element tag "ch"+id is id again, when id holds no "ch" |
| PyText.DigitChar | custom_components/fellerzeptrion/hub.py:169 | the digit character for d is a digit whose value is d |
| PyText.FormatNat | custom_components/fellerzeptrion/hub.py:169 | the decimal form of a natural number is a non-empty string of digits |
| PyText.FormatInt | custom_components/fellerzeptrion/hub.py:169 | str(n) is non-empty, starts with "-" exactly when n < 0, and is digits after that sign |
| PyText.DigitsValueFormatNat | custom_components/fellerzeptrion/hub.py:169 | reading back the digits of a natural number gives that number |
| PyText.DigitsAreLiteral | custom_components/fellerzeptrion/hub.py:169 | a non-empty run of digits is a literal int() accepts, and every one of its characters counts as a digit |
| PyText.ParseUnsignedDigits | custom_components/fellerzeptrion/hub.py:169 | a run of at most 4300 digits reads as the number it spells |
| PyText.ParseFormatNat | custom_components/fellerzeptrion/hub.py:169 | int(str(n)) == n for a natural number of at most 4300 digits |
| PyText.ParseFormatNegative | custom_components/fellerzeptrion/hub.py:169 | int(str(-n)) == -n for a positive number of at most 4300 digits |
| PyText.ParseFormatInt | custom_components/fellerzeptrion/hub.py:169 | int(str(n)) == n for every integer of at most 4300 digits, so the default category "-1" parses back to DeviceCategory.UNKNOWN |
| PyText.ParseIntTooManyDigits | custom_components/fellerzeptrion/hub.py:169 | int() raises ValueError on a literal of more than 4300 digits |
| PyText.ParseIntStrips | custom_components/fellerzeptrion/hub.py:85 | int() gives the same result on a value and on its stripped form |
| PyText.ParseInt42 | custom_components/fellerzeptrion/hub.py:85 | int("42") is 42 |
| PyText.ParseIntPadded | custom_components/fellerzeptrion/hub.py:85 | int() ignores white space around a value |
| PyText.ParseIntUnderscore | custom_components/fellerzeptrion/hub.py:85 | int() accepts a single underscore between digits |
| PyText.ParseIntRejectsFraction | custom_components/fellerzeptrion/hub.py:85-88 | int() raises ValueError on a fraction |
| PyText.ParseIntRejectsDoubledUnderscore | custom_components/fellerzeptrion/hub.py:85-88 | int() raises ValueError on two adjacent underscores |
| PyText.ParseIntRejectsEmpty | custom_components/fellerzeptrion/hub.py:85-88 | int() raises ValueError on the empty text |
| Xml.FindIndex | custom_components/fellerzeptrion/hub.py:185 | the found position is the first child with the tag; with no position, no child has the tag |
| Xml.Find | custom_components/fellerzeptrion/hub.py:121 | find returns the first direct child with the tag, or nothing when no child has it |
| Xml.SafeFindText | custom_components/fellerzeptrion/hub.py:182-188 | gives the default when there is no element, no such child, or that child's text is None or empty; otherwise the first such child's stripped text; never None when the default is a string |
| Xml.TextOr | custom_components/fellerzeptrion/hub.py:165-169 | with a string default: the default when no child has the tag; otherwise the first such child's stripped text, or the default when that text is None or empty |
| Xml.WhitespaceOnlyTextIsEmpty | custom_components/fellerzeptrion/hub.py:186 | text made only of white space is truthy, so it gives "" and not the default |
| Dicts.Empty | custom_components/fellerzeptrion/hub.py:157 | the empty dict is well formed and has no entries |
| Dicts.Assign | custom_components/fellerzeptrion/hub.py:172-177 | d[k] = v keeps the dict well formed and maps k to v; a new key goes to the end and an existing key keeps its place |
| Dicts.AssignAllValid | custom_components/fellerzeptrion/config_flow.py:63 | assigning keys of b into a keeps it well formed and a's keys first |
| Dicts.AssignAllEntries | custom_components/fellerzeptrion/config_flow.py:63 | after assigning keys of b into a, the keys are a's plus the assigned ones; assigned keys take b's value; other keys keep a's |
| Dicts.AssignAllSpec | custom_components/fellerzeptrion/config_flow.py:63 | assigning keys of b into a keeps it well formed; the keys are a's plus the assigned ones; assigned keys take b's value; other keys keep a's |
| Dicts.Merge | custom_components/fellerzeptrion/config_flow.py:63 | {**a, **b}: the keys of b assigned into a in b's order; MergeSpec states what that gives |
| Dicts.MergeEntries | custom_components/fellerzeptrion/config_flow.py:63 | the entries of {**a, **b} are a's overridden by b's |
| Dicts.MergeSpec | custom_components/fellerzeptrion/config_flow.py:63 | {**a, **b} is well formed, has the entries a + b (b wins on a shared key), and lists a's keys first |
| Hub.ChannelName | custom_components/fellerzeptrion/hub.py:163-167 | the configured override when channel_names holds "Channel {id} Name"; otherwise, when the element has no `<name>` child, "Unnamed" |
| Hub.CategoryOf | custom_components/fellerzeptrion/hub.py:169 | a channel without a `<cat>` child has category UNKNOWN (-1) |
| Hub.ChannelEntry | custom_components/fellerzeptrion/hub.py:161-177 | a child raises exactly when its category is not an integer, then with ValueError; it is skipped exactly when its category is UNKNOWN |
| Hub.ChannelDescriptions | custom_components/fellerzeptrion/hub.py:155-180 | a malformed document gives {}; the only exception is ValueError; a result is a well-formed dict with no channel of category UNKNOWN |
| Hub.CollectErrorIff | custom_components/fellerzeptrion/hub.py:160-177 | the loop raises exactly when one of the children raises, and with that child's exception |
| Hub.CollectValid | custom_components/fellerzeptrion/hub.py:160-177 | a finished loop gives a well-formed dict |
| Hub.CollectKeys | custom_components/fellerzeptrion/hub.py:160-177 | its keys are exactly the tags of the children that added a channel |
| Hub.CollectValues | custom_components/fellerzeptrion/hub.py:172-177 | each of its values is a channel added by a child with that tag |
| Hub.CollectSnoc | custom_components/fellerzeptrion/hub.py:160-177 | one more child extends the loop's dict by that child's channel, skips it, or raises its error |
| Hub.VisitStep | custom_components/fellerzeptrion/hub.py:160-177 | the loop step for one child: the child extends the dict by its channel, is skipped, or raises its error |
| Hub.CollectLastWins | custom_components/fellerzeptrion/hub.py:172 | when several children add under one tag, the last one's channel is stored |
| Hub.CollectErrorPersists | custom_components/fellerzeptrion/hub.py:169 | once a child has raised, the rest of the loop does not change the outcome |
| Hub.ChannelEntryFacts | custom_components/fellerzeptrion/hub.py:161-177 | a child raises exactly when its category is not an integer, and the error is ValueError; it adds a channel exactly when the category is known; the channel carries the child's id, name, group and category |
| Hub.DescriptionsErrorIff | custom_components/fellerzeptrion/hub.py:169 | parsing the descriptions raises exactly when some child's category is not an integer, and the error is ValueError |
| Hub.DescriptionsKnown | custom_components/fellerzeptrion/hub.py:170-171 | a successful parse gives a well-formed dict with no channel of category UNKNOWN |
| Hub.DescriptionsKeys | custom_components/fellerzeptrion/hub.py:170-177 | the keys are exactly the tags of the children with a known category: every such child's tag is a key, every key is such a tag; the last such child with a tag gives that key's channel |
| Hub.ParseChannelDescriptions | custom_components/fellerzeptrion/hub.py:155-180 | the loop computes the description dict; a malformed document gives the empty dict; the result is well formed and has no channel with category UNKNOWN |
| Hub.ParsedChannel | custom_components/fellerzeptrion/hub.py:160-177 | every stored channel comes from a kept child with that tag: id = tag without "ch", name as ChannelName gives it (the configured override, else `<name>` or "Unnamed"), group `<group>` or "Ungrouped", and its known category |
| Hub.ParseChannelState | custom_components/fellerzeptrion/hub.py:117-125 | None on a parse error or when element ch{channel} is missing; otherwise that element's stripped `<val>` |
| Hub.ChannelStateExample | custom_components/fellerzeptrion/hub.py:117-125 | `<zrap><ch3><val>128</val></ch3></zrap>` gives "128" for channel 3 and None for channel 9 |
| Hub.ParseDeviceInfo | custom_components/fellerzeptrion/hub.py:127-143 | None exactly on a parse error; otherwise hw, sn, type and sw as safe_find_text reads them |
| Hub.ParseNetworkInfo | custom_components/fellerzeptrion/hub.py:145-153 | None exactly on a parse error; otherwise the mac as safe_find_text reads it |
| Hub.LightOn | custom_components/fellerzeptrion/hub.py:82-88 | the light-state rule: "on" when int(state) > 0; no state or a non-integer state means "off"; LightOnFormatted and LightOffBeyondDigitLimit state what it gives |
| Hub.LightOnFormatted | custom_components/fellerzeptrion/hub.py:85 | a state that is the decimal form of n, of at most 4300 digits, means "on" exactly when n > 0 |
| Hub.LightOffBeyondDigitLimit | custom_components/fellerzeptrion/hub.py:84-88 | a state of more than 4300 digits makes int() raise ValueError, so the light reads "off" |
| Hub.LightStateAsWritten | custom_components/fellerzeptrion/hub.py:78-88 | as written: it raises exactly when the fetch failed, and then with TypeError |
| Hub.LightStateAsWrittenRaises | custom_components/fellerzeptrion/hub.py:80-81 | as written, a failed channel-state fetch raises TypeError |
| Hub.LightState | custom_components/fellerzeptrion/hub.py:78-88 | a failed fetch means "off"; otherwise the result agrees with the as-written rule (no state or a non-integer state means off, else int(state) > 0) |
| Hub.Transport | custom_components/fellerzeptrion/hub.py:190-205 | a body comes back exactly on status 200 or 302, and it is the response's body |
| Hub.EncodeCommand | custom_components/fellerzeptrion/hub.py:224 | the form has the single key "cmd"+channel, and its value is the command |
| Hub.EncodeCommandInjective | custom_components/fellerzeptrion/hub.py:224 | two forms that are equal name the same channel and the same command |
| Hub.StopCommand | custom_components/fellerzeptrion/hub.py:98-103 | stop sends "off" exactly after "open", and "on" otherwise |
| Hub.ZeptrionHub.constructor | custom_components/fellerzeptrion/hub.py:36-39 | a new hub has its host and has sent nothing |
| Hub.ZeptrionHub.MakeRequest | custom_components/fellerzeptrion/hub.py:190-205 | appends exactly one request and returns the transport rule's result; it never raises |
| Hub.ZeptrionHub.SendCommand | custom_components/fellerzeptrion/hub.py:222-226 | appends exactly one form-encoded POST to /zrap/chctrl carrying the command |
| Hub.ZeptrionHub.AwaitUpdate | custom_components/fellerzeptrion/hub.py:213-214 | appends a GET to /zrap/chnotify with a timeout of 1 |
| Hub.ZeptrionHub.GetChannelDescriptions | custom_components/fellerzeptrion/hub.py:45-50 | one GET to /zrap/chdes; None when the fetch failed; otherwise the parse's dict or its exception |
| Hub.ZeptrionHub.GetNetworkInfo | custom_components/fellerzeptrion/hub.py:52-57 | one GET to /zrap/net; None when the fetch failed; otherwise the parsed network info |
| Hub.ZeptrionHub.GetDeviceInfo | custom_components/fellerzeptrion/hub.py:59-64 | one GET to /zrap/id; None when the fetch failed; otherwise the parsed device info |
| Hub.ZeptrionHub.TurnLightOn | custom_components/fellerzeptrion/hub.py:66-70 | the log grows by the "on" command, then the notify poll |
| Hub.ZeptrionHub.TurnLightOff | custom_components/fellerzeptrion/hub.py:72-76 | the log grows by the "off" command, then the notify poll |
| Hub.ZeptrionHub.GetLightState | custom_components/fellerzeptrion/hub.py:78-88 | one GET to /zrap/chscan; the result is the corrected light-state rule applied to the answer |
| Hub.ZeptrionHub.BlindOpen | custom_components/fellerzeptrion/hub.py:90-92 | sends "on" |
| Hub.ZeptrionHub.BlindClose | custom_components/fellerzeptrion/hub.py:94-96 | sends "off" |
| Hub.ZeptrionHub.BlindStop | custom_components/fellerzeptrion/hub.py:98-103 | sends the stop command for the previous action |
| Hub.ZeptrionHub.BlindOpenTilt | custom_components/fellerzeptrion/hub.py:105-107 | sends "dim_up_200" |
| Hub.ZeptrionHub.BlindCloseTilt | custom_components/fellerzeptrion/hub.py:109-111 | sends "dim_down_200" |
| Hub.ZeptrionHub.BlindToggle | custom_components/fellerzeptrion/hub.py:113-115 | sends "on", not "toggle" |
| Cover.Issued | custom_components/fellerzeptrion/cover.py:74-136 | an operation sends nothing exactly when it is stop with no previous action or close-tilt after a close; stop sends the inverse of the previous direction |
| Cover.Moved | custom_components/fellerzeptrion/cover.py:74-136 | after a command that went out, the blind reads "closed" exactly after close, and remembers a direction exactly after open or close |
| Cover.Next | custom_components/fellerzeptrion/cover.py:74-136 | a hub call that raises leaves the fields as they were; otherwise they stay or become those of the operation |
| Cover.InitialConsistent | custom_components/fellerzeptrion/cover.py:46-54 | a new entity is in a consistent state |
| Cover.NextConsistent | custom_components/fellerzeptrion/cover.py:74-136 | every operation keeps the state consistent: the previous action is none, "open" or "close"; "closed" is True exactly after a close |
| Cover.StopReversesDirection | custom_components/fellerzeptrion/cover.py:94-104 | stop after open sends "off"; stop after close sends "on"; both leave the blind idle and not closed |
| Cover.StopWhenIdle | custom_components/fellerzeptrion/cover.py:96-97 | stop with no previous action sends nothing and changes nothing |
| Cover.CloseTiltAfterClose | custom_components/fellerzeptrion/cover.py:118-119 | close-tilt right after a close sends nothing and changes nothing |
| Cover.StateIsLastIssued | custom_components/fellerzeptrion/cover.py:74-136 | after any run of operations, the state is that of the last command which went out and did not raise (initial if none); it reads "closed" exactly when that command was a close |
| Cover.Blind.constructor | custom_components/fellerzeptrion/cover.py:38-54 | a new blind addresses the channel's id, has its name, starts knowing nothing, and has unique id name_key_mac |
| Cover.Blind.OpenCover | custom_components/fellerzeptrion/cover.py:74-82 | the state moves as the transition function says, and the hub log grows by exactly the command sent |
| Cover.Blind.CloseCover | custom_components/fellerzeptrion/cover.py:84-92 | the state moves as the transition function says, and the hub log grows by exactly the command sent |
| Cover.Blind.StopCover | custom_components/fellerzeptrion/cover.py:94-104 | the state moves as the transition function says, and the hub log grows by exactly the command sent |
| Cover.Blind.OpenCoverTilt | custom_components/fellerzeptrion/cover.py:106-114 | the state moves as the transition function says, and the hub log grows by exactly the command sent |
| Cover.Blind.CloseCoverTilt | custom_components/fellerzeptrion/cover.py:116-126 | the state moves as the transition function says, and the hub log grows by exactly the command sent |
| Cover.Blind.Toggle | custom_components/fellerzeptrion/cover.py:128-136 | the state moves as the transition function says, and the hub log grows by exactly the command sent |
| Cover.BlindKeys | custom_components/fellerzeptrion/cover.py:29-31 | the selected keys are no more than the keys given, and each names a channel of category 5 |
| Cover.BlindKeysSpec | custom_components/fellerzeptrion/cover.py:29-31 | the selected keys are exactly the channels of category 5, each listed once |
| Cover.SelectBlinds | custom_components/fellerzeptrion/cover.py:29-31 | the loop picks the category-5 keys in dict order, each once |
| Cover.SetupEntry | custom_components/fellerzeptrion/cover.py:17-32 | AttributeError when there are no channels; otherwise TypeError exactly when a blind must be made and there is no network info; otherwise one new blind per category-5 channel, in order, with that channel's id, name and unique id |
| ConfigFlow.HubNameDefault | custom_components/fellerzeptrion/config_flow.py:75 | the hub name default is "Feller Zeptrion Zapp " followed by the serial number, or by "None" when there is none |
| ConfigFlow.AddField | custom_components/fellerzeptrion/config_flow.py:78-79 | adding a field keeps the schema well formed and always holds the field; a field already there keeps its default; a new one goes last with the given default |
| ConfigFlow.SchemaOf | custom_components/fellerzeptrion/config_flow.py:75-79 | the fields get_channel_schema builds; SchemaHead, SchemaKeys and SchemaDefaults state what they are |
| ConfigFlow.ChannelFieldDistinct | custom_components/fellerzeptrion/config_flow.py:75-78 | a channel field is never "Hub Name", and different ids give different fields |
| ConfigFlow.NamesFieldSnoc | custom_components/fellerzeptrion/config_flow.py:76-78 | a field is named by some channel exactly when it is named by an earlier one or by the last |
| ConfigFlow.SchemaHead | custom_components/fellerzeptrion/config_flow.py:75 | the schema is well formed and its first field is "Hub Name", whose default is "Feller Zeptrion Zapp " + serial number |
| ConfigFlow.SchemaKeys | custom_components/fellerzeptrion/config_flow.py:75-79 | the fields are exactly "Hub Name" plus "Channel {id} Name" for every channel whose category is not -1 |
| ConfigFlow.SchemaDefaults | custom_components/fellerzeptrion/config_flow.py:76-79 | a channel field's default is the name of the first channel with that id whose category is not -1 |
| ConfigFlow.SchemaDefaultsAreNames | custom_components/fellerzeptrion/config_flow.py:76-79 | when ids differ, each channel's field has that channel's own name as its default |
| ConfigFlow.ChannelSchema | custom_components/fellerzeptrion/config_flow.py:73-82 | the loop builds the schema the fold describes, and the "no fields" result never happens |
| ConfigFlow.HubConfigFlow.constructor | custom_components/fellerzeptrion/config_flow.py:28-32 | a new flow has no device info, no channels and empty data |
| ConfigFlow.HubConfigFlow.StepUser | custom_components/fellerzeptrion/config_flow.py:34-56 | no input shows the host form. A ValueError escapes. A failed fetch shows "Could not connect" and stores nothing. Otherwise it stores channels, device info and host, then shows the channel form |
| ConfigFlow.HubConfigFlow.ParsedChannelsValid | custom_components/fellerzeptrion/hub.py:155-180 | a fetched channel dict is well formed |
| ConfigFlow.HubConfigFlow.StepChannels | custom_components/fellerzeptrion/config_flow.py:58-71 | with answers: an entry titled by "Hub Name" whose data is host merged with the answers, or KeyError when "Hub Name" is missing. Without answers: TypeError when there is no device info, else the channel form |

## Left out

- Parsing text into XML is not modelled. Each document is a tree or
  Malformed (ElementTree's ParseError). Element tails, attributes and
  namespaces are not modelled, because no parser reads them.
- `Element.find` is modelled for plain tags: the first direct child. The
  parsers only pass plain tags; the rest of the ElementPath syntax is not
  modelled.
- `PyText.FormatInt`: does not model the ValueError `str()` raises for an
  integer of more than 4300 digits. The only integer the source formats is
  -1.
- `int()`: only ASCII digits are accepted. The digit limit is Python's
  default; a changed `sys.set_int_max_str_digits` setting is not modelled. Python also accepts other
  Unicode decimal digits, which the hub does not send.
- `str(DeviceCategory.UNKNOWN)` is taken to be "-1", as on Python 3.11 and
  later. Older versions give "DeviceCategory.UNKNOWN", and `int()` would
  then raise.
- The category is a plain integer. IntEnum equality with int behaves
  the same way.
- The HTTP session: URL building beyond the endpoint, form URL-encoding,
  headers on GETs, the aiohttp timeout object, and closing the session.
  Requests are logged by method, endpoint, headers, form and timeout.
- Logging (`_LOGGER`) is not modelled. It has no effect on results.
- Async scheduling and concurrency: each coroutine is modelled as running
  to completion when awaited.
- The notify poll's answer is not modelled; it is discarded.
- Cover methods: a hub call that raises is the `raised` parameter.
  Nothing is logged for it, because the call did not complete. The
  modelled hub never raises.
- `async_write_ha_state`, the entity's `device_info` property and its
  supported-feature flags are not modelled. They are Home Assistant
  plumbing with no logic.
- `async_add_entities` is not modelled. `Cover.SetupEntry` returns the
  list it would receive.
- voluptuous validation of the user's answers is not modelled. A schema is
  the dict of field names to defaults.
- The config flow's `user_input` for step one is its host string. The
  schema guarantees the "host" key.
- `ConfigFlow.HubConfigFlow.StepUser`: it does not state how the hub log
  grows. The hub is local to the step: one GET to /zrap/chdes, and one
  to /zrap/id unless the first raised.
- `ConfigFlow.HubConfigFlow.StepChannels`: the AttributeError for missing
  channels and the "no_channels" abort cannot happen here. Channels and
  device info are stored together, so the TypeError at line 75 always
  comes first. The schema always holds "Hub Name".
- light.py and `__init__.py` (entity wiring, setup/unload of the config
  entry) are not part of this model.

## Findings

| source | as written | input that shows it | evidently intended | confidence | as-written member | corrected member |
|---|---|---|---|---|---|---|
| custom_components/fellerzeptrion/hub.py:80-81 | the failed fetch's `None` goes to `StdET.fromstring`, which raises TypeError; `parse_channel_state` only catches ParseError | a channel-state request that times out or gets status 500 | `get_light_state` reports the light off (False), as it does for every other failure | not executed | Hub.LightStateAsWritten, Hub.LightStateAsWrittenRaises | Hub.LightState |
