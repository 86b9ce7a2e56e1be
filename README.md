# Xenia coffee machine integration: a Dafny model of its decision logic

The integration polls the Xenia espresso machine's `GET /api/v2/overview`
endpoint, turns the JSON answer into switch and sensor state, and sends on/off
commands to `POST /api/v2/machine/control`. After a successful command it waits
five seconds and asks for one refresh. This project models the decisions in
that code, with each HTTP exchange abstracted as a value:

- `Http.Reply` is one request's outcome. It is an answer (status code plus
  body), a transport-level `aiohttp.ClientError`, or the 10 s timeout.
- `Http.Body` is what `await response.json()` finds. It is a decoded JSON
  value, a wrong content type (aiohttp's `ContentTypeError`, itself a
  `ClientError`), or malformed text (a `ValueError`).
- `JsonValues` holds decoded JSON together with the part of Python's `==` and
  hashing that `STATUS_MAP.get(...)` relies on. `True == 1` and `2.0 == 2`,
  and a list or dict cannot be a dict key. Python's `None` is `JNull`.
- `Http.Update` is a poll's result: the data it returns, or the exception it
  raises. `Http.Attempt` is the body of a `try` block: it finished, or a
  `ClientError` reached the `except` clause.

Modules:

- `Switch` (switch.py) covers the status poll behind the switch
  (`async_update_data`), the switch entity's `is_on` and
  `extra_state_attributes`, and the command path (`async_turn_on`,
  `async_turn_off`, `_control_machine`). The command path is a class whose
  methods return the events a command produces: the POST, the pause, the
  refresh request, or a logged error.
- `Coordinator` (coordinator.py) covers `XeniaCoffeeCoordinator._async_update_data`.
- `UpdatePaths` holds lemmas that set the two polls side by side, because
  they disagree. The switch defaults `MA_STATUS` to 0 and treats 401 as an
  authentication failure. The coordinator has no default and refuses every
  status but 200.

Behaviour worth noting:

- The status label is not total over every JSON value. An `MA_STATUS` that is
  a list or an object makes `STATUS_MAP.get` raise `TypeError`
  (`Switch.StatusLabel`). Over numbers, booleans, strings and null it is total.
- A failed command is logged and no refresh follows (switch.py:109-114).
- The 10 s limit in the switch raises `asyncio.TimeoutError`, which no
  `except aiohttp.ClientError` catches, so it propagates to the caller
  (switch.py:50, switch.py:108).
- Only the switch poll treats 401 specially (switch.py:52-53). The
  coordinator reports it as an ordinary non-200 status (coordinator.py:25, coordinator.py:32-33).

## Model

| member | source | states |
|---|---|---|
| JsonValues.IntEquivalent | switch.py:59-60 | the int a decoded value equals under Python's `==`: ints themselves, booleans as 1/0, whole-number floats; never a list, dict, string or None |
| JsonValues.FloatEqualsInt | switch.py:59 | a float equals an int exactly when they are the same number |
| Http.ReadObject | switch.py:55-57 | decoding the body and calling `data.get`: a JSON object yields its fields; wrong content type is a `ClientError`; malformed text is `ValueError`; any other JSON value has no `get` (`AttributeError`) |
| Switch.StatusLabel | switch.py:26 | `STATUS_MAP.get(v, "unknown")`: "off", "on" and "eco" exactly for values equal to 0, 1 and 2; "unknown" for every other hashable value; `TypeError` exactly for unhashable values |
| Switch.StatusLabelOfCode | switch.py:60 | every integer code gets a label: 0, 1 and 2 give "off", "on" and "eco", every other code gives "unknown" |
| Switch.MapStatus | switch.py:57-61 | the result is `is_on` true exactly when the code equals 1; the status is the code's label; so `is_on` holds exactly when the label is "on" (eco and unknown are not on) |
| Switch.MissingStatusIsOff | switch.py:57-60 | a payload without `MA_STATUS` reads as code 0: not on, status "off" |
| Switch.NullStatusIsUnknown | switch.py:57-60 | an explicit null `MA_STATUS` is not defaulted: not on, status "unknown" |
| Switch.UpdateData | switch.py:49-63 | 401 raises the auth failure although 401 is also an error status; every other status from 400 up fails via `raise_for_status` without parsing; transport errors become UpdateFailed; timeouts escape; for a passing status, a wrong content type becomes UpdateFailed, malformed text raises `ValueError`, a non-object body `AttributeError` and an unhashable code `TypeError`; data is produced exactly for a passing status with a JSON object whose code is hashable, and it is that payload's mapping |
| Switch.UpdateDataAsWritten | switch.py:62-63 | the poll as written never raises UpdateFailed (the name is not imported) |
| Switch.AsWrittenRaisesNameError | switch.py:62-63 | for every reply, the code as written raises NameError exactly where UpdateFailed is intended, and otherwise agrees with the intended poll |
| Switch.NameErrorWitnesses | switch.py:54-63 | a refused connection and a 500 answer raise NameError as written and UpdateFailed as intended |
| Switch.IsOn | switch.py:75-78 | the `is_on` property returns the coordinator data's `is_on` entry (its meaning after a poll is stated by Switch.EntityShowsPolledCode) |
| Switch.ExtraStateAttributes | switch.py:80-85 | the `extra_state_attributes` property returns a one-key map holding the coordinator data's `status` entry under "status" |
| Switch.EntityShowsPolledCode | switch.py:75-85 | after a successful poll, `is_on` holds exactly when the polled code equals 1, and `extra_state_attributes` is `{"status": <that code's label>}` |
| Switch.ActionOf | switch.py:92-98 | turning on sends action "1" and turning off sends "0", and only those |
| Switch.ControlBody | switch.py:105 | the `json.dumps({"action": action})` text with Python's default separators, `{"action": "<action>"}` (its inverse is Switch.ParseControlBody, proved by Switch.ControlBodyRoundTrip) |
| Switch.ParseControlBody | switch.py:105 | the inverse of the body encoding: it succeeds only on the exact `{"action": "<a>"}` text of some plain action a |
| Switch.ControlBodyRoundTrip | switch.py:105 | the body of a command decodes back to the action it encodes |
| Switch.AfterPost | switch.py:109-114 | after the POST: a passing status gives the 5 s pause then one refresh request; a `ClientError` (including a failing status) gives one logged error and no refresh; a timeout gives nothing further |
| Switch.ControlTrace | switch.py:100-114 | one command is one POST of the encoded action with the form content type, a refresh request exactly when the POST succeeded, every refresh right after the pause and the POST, and an error logged exactly when a `ClientError` occurred |
| Switch.XeniaCoffeeMachine.constructor | switch.py:68-73 | the entity keeps the host it was created with |
| Switch.XeniaCoffeeMachine.TurnOn | switch.py:92-94 | turning on produces the command trace of action "1", whose body decodes to "1"; only a timeout escapes |
| Switch.XeniaCoffeeMachine.TurnOff | switch.py:96-98 | turning off produces the command trace of action "0", whose body decodes to "0"; only a timeout escapes |
| Switch.XeniaCoffeeMachine.ControlMachine | switch.py:100-114 | the events the method emits are the command trace for its action and reply; it raises exactly on a timeout, and then `TimeoutError` |
| Switch.RefreshOnlyAfterSuccess | switch.py:107-114 | over any series of commands: one POST per command, exactly as many refresh requests as successful POSTs, and every refresh right after a pause that follows a POST |
| Coordinator.Readings | coordinator.py:27-31 | the result has exactly the keys status, group_temperature and boiler_temperature, each holding its payload field (`MA_STATUS`, `BG_SENS_TEMP_A`, `BB_SENS_TEMP_A`) or None when absent |
| Coordinator.UpdateData | coordinator.py:21-35 | data exactly for status 200 with a JSON object body, and then the three-key readings; every other status, 401 included, is UpdateFailed carrying that status; `ClientError`s (transport, content type) become UpdateFailed; a 200 answer with malformed text raises `ValueError` and one with a non-object body `AttributeError` |
| Coordinator.MissingFieldsAreNone | coordinator.py:28-30 | a payload lacking all three fields gives all three keys as None, not an error |
| Coordinator.TemperaturesPassThrough | coordinator.py:29-30 | the temperatures are the payload's values, unchanged |
| UpdatePaths.Unauthorized | switch.py:52-53 | 401 is the auth failure for the switch poll and an ordinary UpdateFailed(401) for the coordinator |
| UpdatePaths.OtherPassingStatus | coordinator.py:25 | a status below 400 other than 200 yields data for the switch but UpdateFailed for the coordinator |
| UpdatePaths.MissingStatus | coordinator.py:28 | with `MA_STATUS` missing, the switch reads "off" while the coordinator reports None |
| UpdatePaths.SameCodeOn200 | switch.py:57 | on a 200 answer carrying a hashable `MA_STATUS`, the switch's label is the label of the coordinator's status value |

## Left out

- HTTP transport is left out: aiohttp sessions, URL building (beyond the control URL in the POST event), request headers of the poll, and the `async_timeout` timer. A request's outcome is the input `Http.Reply`.
- `asyncio.sleep(5)` and `async_request_refresh` are events in a trace, not timers. The refresh they request is not modelled further.
- The host framework's `DataUpdateCoordinator` is not modelled. That covers the 30 s schedule, `async_config_entry_first_refresh`, refresh de-duplication, keeping the last data after a failure and notifying entities. Its source is not part of this model, and these are scheduling and concurrency concerns.
- The coordinator sets no timeout of its own and uses the session's defaults. There `TimedOut` stands for the session's total timeout, which escapes as `asyncio.TimeoutError`. The session's socket connect and read timeouts raise `ServerTimeoutError`, a `ClientError`, so they are `ClientFailure` replies and end in `UpdateFailed`.
- `sensor.py` is a one-line projection `coordinator.data[key]` plus entity metadata, and `__init__.py` loads only the switch platform and stores the config entry rather than a coordinator. `config_flow.py` is a one-field form. All three are host-framework glue.
- Entity names, unique IDs, the icon and units are display metadata only.
- Non-finite floats (NaN, Infinity, which Python's decoder accepts) are not values of `JsonValues.Json`. They would equal no code and map to "unknown".
- Switch.ControlBody: models `json.dumps` only for actions made of printable ASCII other than `"` and `\`, which need no escaping. The source only ever passes "1" and "0".
- Switch.XeniaCoffeeMachine.ControlMachine: requires such a plain action, for the same reason.
- Exceptions raised by the sleep or the refresh request inside `_control_machine` are not modelled.

## Findings

| source | as written | input that shows it | evidently intended | confidence | as-written member | corrected member |
|---|---|---|---|---|---|---|
| switch.py:62-63 | the `except aiohttp.ClientError` clause raises `UpdateFailed`, which switch.py never imports, so every `ClientError` (refused connection, status 500, wrong content type) ends in `NameError` | a refused connection, or an answer with status 500 | raise `UpdateFailed` carrying the error, as coordinator.py does | high; not executed | Switch.UpdateDataAsWritten | Switch.UpdateData |
